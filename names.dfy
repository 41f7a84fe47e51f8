/** The name patterns of `_extract_user_name` (myChatBot.py:142-157) as a
    scanner. Each pattern is a literal prefix followed by `(\w+)`; a regular
    expression search finds the leftmost position where the prefix is
    followed by at least one word character, and the greedy group captures
    the maximal run of word characters there. */
module Names {
  import opened Choice
  import opened Text

  /** The literal parts of `my name is (\w+)`, `i'm (\w+)`, `i am (\w+)` and
      `call me (\w+)`, in the order they are tried. */
  const NAME_PATTERNS: seq<string> := ["my name is ", "i'm ", "i am ", "call me "]

  /** The pattern `prefix(\w+)` matches `s` at position `i`. */
  predicate NameMatchAt(s: string, prefix: string, i: int) {
    0 <= i && i + |prefix| < |s| && s[i..i + |prefix|] == prefix && IsWordChar(s[i + |prefix|])
  }

  /** `re.search(prefix + r"(\w+)", s)` from position `from` on: the leftmost
      position where the pattern matches. */
  function SearchName(s: string, prefix: string, from: nat): (r: Option<nat>)
    ensures r.Some? ==> from <= r.value && NameMatchAt(s, prefix, r.value)
    ensures r.Some? ==> forall j :: from <= j < r.value ==> !NameMatchAt(s, prefix, j)
    ensures r.None? <==> forall j :: from <= j ==> !NameMatchAt(s, prefix, j)
    decreases |s| - from
  {
    if from + |prefix| >= |s| then None
    else if NameMatchAt(s, prefix, from) then Some(from)
    else SearchName(s, prefix, from + 1)
  }

  /** End of the maximal run of word characters that starts at `i`. */
  function WordRunEnd(s: string, i: nat): (e: nat)
    requires i <= |s|
    ensures i <= e <= |s|
    ensures forall k :: i <= k < e ==> IsWordChar(s[k])
    ensures e == |s| || !IsWordChar(s[e])
    decreases |s| - i
  {
    if i < |s| && IsWordChar(s[i]) then WordRunEnd(s, i + 1) else i
  }

  /** `match.group(1)` for a match of `prefix(\w+)` at `i`. */
  function Captured(s: string, prefix: string, i: nat): (w: string)
    requires NameMatchAt(s, prefix, i)
    ensures |w| > 0 && i + |prefix| + |w| <= |s|
    ensures w == s[i + |prefix|..i + |prefix| + |w|]
    ensures forall k :: 0 <= k < |w| ==> IsWordChar(w[k])
    ensures i + |prefix| + |w| == |s| || !IsWordChar(s[i + |prefix| + |w|])
  {
    var start := i + |prefix|;
    var e := WordRunEnd(s, start);
    assert forall k :: 0 <= k < e - start ==> s[start..e][k] == s[start + k];
    s[start..e]
  }

  /** The name found by trying the patterns from index `k` on, in order, in
      the already lower-cased text `lowered`. */
  function NameFromPatterns(lowered: string, k: nat): (r: Option<string>)
    requires k <= |NAME_PATTERNS|
    ensures r.None? <==> forall p, i :: k <= p < |NAME_PATTERNS| ==> !NameMatchAt(lowered, NAME_PATTERNS[p], i)
    decreases |NAME_PATTERNS| - k
  {
    if k == |NAME_PATTERNS| then None
    else match SearchName(lowered, NAME_PATTERNS[k], 0)
      case Some(i) =>
        assert NameMatchAt(lowered, NAME_PATTERNS[k], i);
        Some(Capitalize(Captured(lowered, NAME_PATTERNS[k], i)))
      case None => NameFromPatterns(lowered, k + 1)
  }

  /** The name `_extract_user_name` stores for `userInput`, if any: the
      patterns are searched in the lower-cased raw input. There is none
      exactly when no pattern matches anywhere in it. */
  function ExtractedName(userInput: string): (r: Option<string>)
    ensures r.None? <==> forall p, i :: 0 <= p < |NAME_PATTERNS| ==> !NameMatchAt(Lower(userInput), NAME_PATTERNS[p], i)
  {
    NameFromPatterns(Lower(userInput), 0)
  }

  /** The reply that acknowledges a newly learned name. */
  function NameAck(name: string): string {
    "Nice to meet you, " + name + "! I'll remember your name."
  }

  /** The first pattern that matches anywhere wins, at its leftmost match,
      and the stored name is the capitalised word captured there. */
  lemma {:induction false} FirstPatternLeftmostMatch(lowered: string, k: nat, p: nat, i: nat)
    requires k <= p < |NAME_PATTERNS| && NameMatchAt(lowered, NAME_PATTERNS[p], i)
    requires forall q, j :: k <= q < p ==> !NameMatchAt(lowered, NAME_PATTERNS[q], j)
    requires forall j :: 0 <= j < i ==> !NameMatchAt(lowered, NAME_PATTERNS[p], j)
    ensures NameFromPatterns(lowered, k) == Some(Capitalize(Captured(lowered, NAME_PATTERNS[p], i)))
    decreases p - k
  {
    if k < p {
      assert SearchName(lowered, NAME_PATTERNS[k], 0) == None;
      FirstPatternLeftmostMatch(lowered, k + 1, p, i);
    } else {
      assert SearchName(lowered, NAME_PATTERNS[p], 0) == Some(i);
    }
  }

  /** An extracted name is a non-empty run of word characters whose first
      letter is upper case and whose other letters are lower case. */
  lemma {:induction false} ExtractedNameShape(lowered: string, k: nat)
    requires k <= |NAME_PATTERNS|
    ensures match NameFromPatterns(lowered, k)
      case None => true
      case Some(name) =>
        && |name| > 0 && !IsLowerAscii(name[0])
        && (forall j :: 0 <= j < |name| ==> IsWordChar(name[j]))
        && (forall j :: 1 <= j < |name| ==> !IsUpperAscii(name[j]))
    decreases |NAME_PATTERNS| - k
  {
    if k < |NAME_PATTERNS| && SearchName(lowered, NAME_PATTERNS[k], 0).None? {
      ExtractedNameShape(lowered, k + 1);
    }
  }
}
