/** The string operations the responder relies on: Python's `str.lower`,
    `str.strip`, `str.capitalize`, `str.split`, the `\w` character class and
    a regular-expression search for a pattern that has no metacharacters.
    Case mapping and `\w` are modelled on ASCII; whitespace is Python's
    `str.isspace` set, given by code point. */
module Text {

  /** Python's `str.isspace`. */
  predicate IsSpace(c: char) {
    var n := c as int;
    (9 <= n <= 13) || (28 <= n <= 32) || n == 0x85 || n == 0xA0 || n == 0x1680
    || (0x2000 <= n <= 0x200A) || n == 0x2028 || n == 0x2029 || n == 0x202F
    || n == 0x205F || n == 0x3000
  }

  predicate IsUpperAscii(c: char) { 'A' <= c <= 'Z' }

  predicate IsLowerAscii(c: char) { 'a' <= c <= 'z' }

  /** The regular-expression class `\w`. */
  predicate IsWordChar(c: char) {
    IsUpperAscii(c) || IsLowerAscii(c) || '0' <= c <= '9' || c == '_'
  }

  function LowerChar(c: char): (d: char)
    ensures !IsUpperAscii(d)
    ensures IsUpperAscii(c) || d == c
    ensures IsSpace(d) <==> IsSpace(c)
    ensures IsWordChar(d) <==> IsWordChar(c)
  {
    if IsUpperAscii(c) then (c as int + 32) as char else c
  }

  function UpperChar(c: char): (d: char)
    ensures !IsLowerAscii(d)
    ensures IsLowerAscii(c) || d == c
    ensures IsWordChar(d) <==> IsWordChar(c)
  {
    if IsLowerAscii(c) then (c as int - 32) as char else c
  }

  /** `s.lower()`: every character mapped on its own, length kept. */
  function Lower(s: string): (r: string)
    ensures |r| == |s|
    ensures forall i :: 0 <= i < |s| ==> r[i] == LowerChar(s[i])
  {
    seq(|s|, i requires 0 <= i < |s| => LowerChar(s[i]))
  }

  /** A string without upper-case letters is its own lower-case form. */
  lemma LowerOfLowered(s: string)
    requires forall i :: 0 <= i < |s| ==> !IsUpperAscii(s[i])
    ensures Lower(s) == s
  {
  }

  /** Index of the first non-whitespace character of `s` at or after `i`,
      or `|s|`. */
  function SkipSpaces(s: string, i: nat): (j: nat)
    requires i <= |s|
    ensures i <= j <= |s|
    ensures forall k :: i <= k < j ==> IsSpace(s[k])
    ensures j < |s| ==> !IsSpace(s[j])
    decreases |s| - i
  {
    if i < |s| && IsSpace(s[i]) then SkipSpaces(s, i + 1) else i
  }

  /** End of `s[lo..j]` once its trailing whitespace is dropped. */
  function DropTrailingSpaces(s: string, lo: nat, j: nat): (e: nat)
    requires lo <= j <= |s|
    ensures lo <= e <= j
    ensures forall k :: e <= k < j ==> IsSpace(s[k])
    ensures e > lo ==> !IsSpace(s[e - 1])
    decreases j
  {
    if j > lo && IsSpace(s[j - 1]) then DropTrailingSpaces(s, lo, j - 1) else j
  }

  /** Where `s.strip()` starts in `s`. */
  function StripOffset(s: string): (a: nat)
    ensures a <= |s|
  {
    SkipSpaces(s, 0)
  }

  /** `s.strip()`: the part of `s` between its leading and its trailing
      whitespace; empty exactly when `s` is all whitespace. */
  function Strip(s: string): (r: string)
    ensures StripOffset(s) + |r| <= |s|
    ensures forall k :: 0 <= k < |r| ==> r[k] == s[StripOffset(s) + k]
    ensures forall k :: 0 <= k < StripOffset(s) ==> IsSpace(s[k])
    ensures forall k :: StripOffset(s) + |r| <= k < |s| ==> IsSpace(s[k])
    ensures r == [] <==> forall i :: 0 <= i < |s| ==> IsSpace(s[i])
    ensures r != [] ==> !IsSpace(r[0]) && !IsSpace(r[|r| - 1])
  {
    var a := SkipSpaces(s, 0);
    var e := DropTrailingSpaces(s, a, |s|);
    assert a < |s| ==> IsSpace(s[a]) || e > a;
    s[a..e]
  }

  /** A string that neither starts nor ends with whitespace is unchanged by
      `strip`. */
  lemma StripFixedPoint(s: string)
    requires s != [] ==> !IsSpace(s[0]) && !IsSpace(s[|s| - 1])
    ensures Strip(s) == s
  {
    if s != [] {
      assert SkipSpaces(s, 0) == 0;
      assert DropTrailingSpaces(s, 0, |s|) == |s|;
    }
  }

  /** `s[i..]` starts with `p`. */
  predicate OccursAt(s: string, p: string, i: int) {
    0 <= i && i + |p| <= |s| && s[i..i + |p|] == p
  }

  /** `re.search(p, s)` succeeds, for a pattern `p` without regular-expression
      metacharacters: `p` occurs somewhere in `s`. */
  predicate Contains(s: string, p: string) {
    exists i :: 0 <= i <= |s| - |p| && OccursAt(s, p, i)
  }

  /** Index of the first `c` in `s` at or after `i`, or `|s|`. */
  function IndexOf(s: string, c: char, i: nat): (j: nat)
    requires i <= |s|
    ensures i <= j <= |s|
    ensures forall k :: i <= k < j ==> s[k] != c
    ensures j < |s| ==> s[j] == c
    decreases |s| - i
  {
    if i < |s| && s[i] != c then IndexOf(s, c, i + 1) else i
  }

  /** `s.split(c)[0]`: the text before the first `c`, or all of `s`. */
  function BeforeFirst(s: string, c: char): (r: string)
    ensures |r| <= |s| && r == s[..|r|]
    ensures c !in r
    ensures |r| < |s| ==> s[|r|] == c
  {
    var j := IndexOf(s, c, 0);
    assert forall k :: 0 <= k < j ==> s[..j][k] == s[k];
    s[..j]
  }

  /** A string is its prefix, one character and its suffix. */
  lemma SplitAround(s: string, i: nat)
    requires i < |s|
    ensures s == s[..i] + [s[i]] + s[i + 1..]
  {
  }

  /** `s.split(c)`: the pieces between successive occurrences of `c`. There
      is one more piece than there are separators, and no piece holds one. */
  function Split(s: string, c: char): (parts: seq<string>)
    ensures |parts| == multiset(s)[c] + 1
    ensures forall k :: 0 <= k < |parts| ==> c !in parts[k]
    ensures parts[0] == BeforeFirst(s, c)
    decreases |s|
  {
    var head := BeforeFirst(s, c);
    if |head| == |s| then
      assert s == head;
      [s]
    else
      var rest := s[|head| + 1..];
      SplitAround(s, |head|);
      assert multiset(s)[c] == multiset(head)[c] + 1 + multiset(rest)[c];
      [head] + Split(rest, c)
  }

  /** `c.join(parts)`. */
  function Join(parts: seq<string>, c: char): string
    requires |parts| > 0
  {
    if |parts| == 1 then parts[0] else parts[0] + [c] + Join(parts[1..], c)
  }

  /** Splitting loses nothing: joining the pieces gives the string back. */
  lemma {:induction false} JoinSplit(s: string, c: char)
    ensures Join(Split(s, c), c) == s
    decreases |s|
  {
    var head := BeforeFirst(s, c);
    if |head| < |s| {
      var rest := s[|head| + 1..];
      var tail := Split(rest, c);
      var parts := Split(s, c);
      assert parts == [head] + tail;
      assert parts[1..] == tail;
      JoinSplit(rest, c);
      assert Join(parts, c) == head + [c] + rest;
      SplitAround(s, |head|);
    }
  }

  /** `w.capitalize()`: first character upper case, the rest lower case. */
  function Capitalize(w: string): (r: string)
    ensures |r| == |w|
    ensures w != [] ==> r[0] == UpperChar(w[0])
    ensures forall i :: 1 <= i < |w| ==> r[i] == LowerChar(w[i])
    ensures w != [] ==> !IsLowerAscii(r[0]) && (IsWordChar(r[0]) <==> IsWordChar(w[0]))
    ensures forall i :: 1 <= i < |w| ==> !IsUpperAscii(r[i]) && (IsWordChar(r[i]) <==> IsWordChar(w[i]))
  {
    seq(|w|, i requires 0 <= i < |w| => if i == 0 then UpperChar(w[0]) else LowerChar(w[i]))
  }

  /** Capitalising keeps the letters: only their case changes, so the
      lower-case forms agree. */
  lemma LowerOfCapitalized(w: string)
    ensures Lower(Capitalize(w)) == Lower(w)
  {
    var r := Capitalize(w);
    forall i | 0 <= i < |w|
      ensures Lower(r)[i] == Lower(w)[i]
    {
      if i == 0 {
        assert LowerChar(UpperChar(w[0])) == LowerChar(w[0]);
      }
    }
  }
}
