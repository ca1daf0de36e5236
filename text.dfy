/**
 * The string operations the pipeline relies on: literal `replaceAll` with an empty
 * replacement, Java's `trim`, ASCII case mapping, Python's `strip` and `capitalize`,
 * substring search and `join`.
 */
module Text {

  predicate StartsWith(s: string, prefix: string) {
    |prefix| <= |s| && s[..|prefix|] == prefix
  }

  /** Python's `sub in s` (and Java's `contains`). */
  predicate Contains(s: string, sub: string)
    decreases |s|
  {
    StartsWith(s, sub) || (s != [] && Contains(s[1..], sub))
  }

  /** Every occurrence of `sub` at a position of `s`, as a witness. */
  lemma {:induction false} ContainsAt(s: string, sub: string, i: nat)
    requires i + |sub| <= |s| && s[i..i + |sub|] == sub
    ensures Contains(s, sub)
    decreases i
  {
    if i == 0 {
      assert s[..|sub|] == sub;
    } else {
      assert s[1..][i - 1..i - 1 + |sub|] == s[i..i + |sub|];
      ContainsAt(s[1..], sub, i - 1);
    }
  }

  /** An index at which `sub` occurs in `s`. */
  function FirstIndexOf(s: string, sub: string): (i: nat)
    requires Contains(s, sub)
    ensures i + |sub| <= |s| && s[i..i + |sub|] == sub
    decreases |s|
  {
    if StartsWith(s, sub) then 0
    else
      var i := FirstIndexOf(s[1..], sub);
      assert s[1..][i..i + |sub|] == s[i + 1..i + 1 + |sub|];
      i + 1
  }

  /** Every character of a contained `sub` occurs in `s`. */
  lemma ContainsHasChar(s: string, sub: string, j: nat)
    requires Contains(s, sub) && j < |sub|
    ensures sub[j] in s
  {
    var i := FirstIndexOf(s, sub);
    assert s[i..i + |sub|][j] == s[i + j];
  }

  /** A string lacking one of the characters of `sub` does not contain `sub`. */
  lemma AbsentChar(s: string, sub: string, j: nat)
    requires j < |sub| && sub[j] !in s
    ensures !Contains(s, sub)
  {
    if Contains(s, sub) {
      ContainsHasChar(s, sub, j);
      assert false;
    }
  }

  /**
   * `s.replaceAll(pattern, "")` for a pattern with no regular-expression
   * metacharacters: occurrences are found left to right, never overlapping.
   */
  function RemoveAll(s: string, pattern: string): (r: string)
    requires pattern != []
    ensures |r| <= |s|
    decreases |s|
  {
    if s == [] then []
    else if StartsWith(s, pattern) then RemoveAll(s[|pattern|..], pattern)
    else [s[0]] + RemoveAll(s[1..], pattern)
  }

  /** Java's `trim` treats every character up to U+0020 as blank. */
  predicate IsJavaBlank(c: char) {
    c <= ' '
  }

  /** The number of blanks `s` starts with. */
  function LeadingBlanks(s: string): (n: nat)
    ensures n <= |s| && (n < |s| ==> !IsJavaBlank(s[n]))
    ensures forall k :: 0 <= k < n ==> IsJavaBlank(s[k])
    decreases |s|
  {
    if s != [] && IsJavaBlank(s[0]) then 1 + LeadingBlanks(s[1..]) else 0
  }

  /** The length of `s` without the blanks it ends with. */
  function WithoutTrailingBlanks(s: string): (n: nat)
    ensures n <= |s| && (0 < n ==> !IsJavaBlank(s[n - 1]))
    ensures forall k :: n <= k < |s| ==> IsJavaBlank(s[k])
    decreases |s|
  {
    if s != [] && IsJavaBlank(s[|s| - 1]) then WithoutTrailingBlanks(s[..|s| - 1]) else |s|
  }

  /** `s[i..j]` is a slice of `s` with only blanks before and after it. */
  predicate JavaBlankOutside(s: string, i: int, j: int) {
    0 <= i <= j <= |s| &&
    (forall k :: 0 <= k < i ==> IsJavaBlank(s[k])) && (forall k :: j <= k < |s| ==> IsJavaBlank(s[k]))
  }

  /** Java's `String.trim`: drops the blanks at both ends and keeps the middle untouched. */
  function Trim(s: string): (r: string)
    ensures r == [] || (!IsJavaBlank(r[0]) && !IsJavaBlank(r[|r| - 1]))
    ensures exists i, j :: JavaBlankOutside(s, i, j) && r == s[i..j]
  {
    var i := LeadingBlanks(s);
    var j := i + WithoutTrailingBlanks(s[i..]);
    assert forall k :: j <= k < |s| ==> s[k] == s[i..][k - i];
    assert JavaBlankOutside(s, i, j);
    s[i..j]
  }

  function UpperChar(c: char): char {
    if 'a' <= c <= 'z' then (c as int - 'a' as int + 'A' as int) as char else c
  }

  function LowerChar(c: char): char {
    if 'A' <= c <= 'Z' then (c as int - 'A' as int + 'a' as int) as char else c
  }

  /** `toUpperCase`, on the ASCII letters. */
  function Upper(s: string): (r: string)
    ensures |r| == |s| && forall k :: 0 <= k < |s| ==> r[k] == UpperChar(s[k])
  {
    seq(|s|, k requires 0 <= k < |s| => UpperChar(s[k]))
  }

  /** Python's `capitalize`, on the ASCII letters: first character upper case, the rest lower case. */
  function Capitalize(s: string): (r: string)
    ensures |r| == |s|
    ensures s != [] ==> r[0] == UpperChar(s[0])
    ensures forall k :: 1 <= k < |s| ==> r[k] == LowerChar(s[k])
  {
    if s == [] then [] else [UpperChar(s[0])] + seq(|s| - 1, k requires 0 <= k < |s| - 1 => LowerChar(s[k + 1]))
  }

  /** The characters Python's `str.isspace` accepts. */
  predicate IsPySpace(c: char) {
    c == ' ' || '\t' <= c <= '\r' || '\U{1C}' <= c <= '\U{1F}' || c == '\U{85}' || c == '\U{A0}'
    || c == '\U{1680}' || '\U{2000}' <= c <= '\U{200A}' || c == '\U{2028}' || c == '\U{2029}'
    || c == '\U{202F}' || c == '\U{205F}' || c == '\U{3000}'
  }

  function PyStripStart(s: string): (r: string)
    ensures r == [] || !IsPySpace(r[0])
    ensures |r| <= |s| && r == s[|s| - |r|..]
    ensures forall k :: 0 <= k < |s| - |r| ==> IsPySpace(s[k])
    decreases |s|
  {
    if s != [] && IsPySpace(s[0]) then PyStripStart(s[1..]) else s
  }

  function PyStripEnd(s: string): (r: string)
    ensures r == [] || !IsPySpace(r[|r| - 1])
    ensures |r| <= |s| && r == s[..|r|]
    ensures forall k :: |r| <= k < |s| ==> IsPySpace(s[k])
    decreases |s|
  {
    if s != [] && IsPySpace(s[|s| - 1]) then PyStripEnd(s[..|s| - 1]) else s
  }

  /** `s[i..j]` is a slice of `s` with only Python whitespace before and after it. */
  predicate PySpaceOutside(s: string, i: int, j: int) {
    0 <= i <= j <= |s| &&
    (forall k :: 0 <= k < i ==> IsPySpace(s[k])) && (forall k :: j <= k < |s| ==> IsPySpace(s[k]))
  }

  /** Python's `strip()`: drops whitespace at both ends and keeps the middle untouched. */
  function PyStrip(s: string): (r: string)
    ensures r == [] || (!IsPySpace(r[0]) && !IsPySpace(r[|r| - 1]))
    ensures exists i, j :: PySpaceOutside(s, i, j) && r == s[i..j]
  {
    var t := PyStripStart(s);
    var r := PyStripEnd(t);
    assert r != [] ==> r[0] == t[0];
    StripSlices(s, |s| - |t|, t, r);
    r
  }

  /** Stripping a prefix `s[..i]` and then a suffix leaves a slice of `s`. */
  lemma StripSlices(s: string, i: nat, t: string, r: string)
    requires i <= |s| && t == s[i..] && |r| <= |t| && r == t[..|r|]
    requires forall k :: 0 <= k < i ==> IsPySpace(s[k])
    requires forall k :: |r| <= k < |t| ==> IsPySpace(t[k])
    ensures PySpaceOutside(s, i, i + |r|) && r == s[i..i + |r|]
  {
    forall k | i + |r| <= k < |s|
      ensures IsPySpace(s[k])
    {
      assert s[k] == t[k - i];
    }
  }

  /** `sep.join(parts)` in Python, `Collectors.joining(sep)` in Java. */
  function Join(parts: seq<string>, sep: string): string {
    if parts == [] then []
    else if |parts| == 1 then parts[0]
    else parts[0] + sep + Join(parts[1..], sep)
  }
}
