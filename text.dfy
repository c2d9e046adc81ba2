/** The string operations the resource URIs are built and read with:
    `str.lower`, `str.title`, `str.replace` and `str.startswith`, on ASCII. */
module Text {

  predicate IsUpper(c: char) {
    'A' <= c <= 'Z'
  }

  predicate IsLower(c: char) {
    'a' <= c <= 'z'
  }

  /** An ASCII letter, the only cased characters of this model. */
  predicate IsLetter(c: char) {
    IsUpper(c) || IsLower(c)
  }

  function LowerChar(c: char): (r: char)
    ensures IsLetter(r) <==> IsLetter(c)
    ensures !IsUpper(r)
  {
    if IsUpper(c) then (c as int + 32) as char else c
  }

  function UpperChar(c: char): (r: char)
    ensures IsLetter(r) <==> IsLetter(c)
    ensures !IsLower(r)
  {
    if IsLower(c) then (c as int - 32) as char else c
  }

  /** `s.lower()`. */
  function Lower(s: string): string {
    seq(|s|, i requires 0 <= i < |s| => LowerChar(s[i]))
  }

  /** `s.title()`: a character that follows a cased character is lowered,
      every other character is raised. */
  function Title(s: string): string {
    seq(|s|, i requires 0 <= i < |s| => if i > 0 && IsLetter(s[i - 1]) then LowerChar(s[i]) else UpperChar(s[i]))
  }

  /** `s.replace(a, b)` for single characters. */
  function ReplaceChar(s: string, a: char, b: char): string {
    seq(|s|, i requires 0 <= i < |s| => if s[i] == a then b else s[i])
  }

  /** `s.startswith(p)`. */
  predicate StartsWith(s: string, p: string) {
    |p| <= |s| && s[..|p|] == p
  }

  /** A concatenation starts with its first part. */
  lemma StartsWithConcat(p: string, s: string)
    ensures StartsWith(p + s, p)
  {
    assert (p + s)[..|p|] == p;
  }

  /** `s.replace(p, "")`: every occurrence of `p`, scanning left to right
      without overlaps, is deleted. */
  function RemoveAll(s: string, p: string): (r: string)
    requires |p| > 0
    ensures |r| <= |s|
    decreases |s|
  {
    if |s| < |p| then s
    else if s[..|p|] == p then RemoveAll(s[|p|..], p)
    else [s[0]] + RemoveAll(s[1..], p)
  }

  /** Raising or lowering a lowered character is the same as doing so to
      the character itself. */
  lemma CaseOfLowered(c: char)
    ensures LowerChar(LowerChar(c)) == LowerChar(c)
    ensures UpperChar(LowerChar(c)) == UpperChar(c)
  {
  }

  /** Title-casing ignores the case the input was in. */
  lemma TitleOfLower(s: string)
    ensures Title(Lower(s)) == Title(s)
  {
    var l := Lower(s);
    forall i | 0 <= i < |s|
      ensures Title(l)[i] == Title(s)[i]
    {
      assert l[i] == LowerChar(s[i]);
      CaseOfLowered(s[i]);
      if i > 0 { assert IsLetter(l[i - 1]) == IsLetter(s[i - 1]); }
    }
  }

  /** Mapping `a` to `b` and back restores a string without `b` in it. */
  lemma ReplaceCharBack(s: string, a: char, b: char)
    requires b !in s
    ensures ReplaceChar(ReplaceChar(s, a, b), b, a) == s
  {
    var t := ReplaceChar(s, a, b);
    forall i | 0 <= i < |s|
      ensures ReplaceChar(t, b, a)[i] == s[i]
    {
      assert s[i] != b;
    }
  }

  /** Deleting a pattern leaves a string alone when one character of the
      pattern does not occur in it. */
  lemma {:induction false} RemoveAllAbsent(s: string, p: string, c: char)
    requires |p| > 0 && c in p && c !in s
    ensures RemoveAll(s, p) == s
    decreases |s|
  {
    if |s| < |p| {
    } else {
      var k :| 0 <= k < |p| && p[k] == c;
      assert s[..|p|][k] == s[k] != c;
      RemoveAllAbsent(s[1..], p, c);
      assert s == [s[0]] + s[1..];
    }
  }

  /** A string that starts with `p` loses that occurrence first. */
  lemma RemoveAllAfterPrefix(p: string, s: string)
    requires |p| > 0
    ensures RemoveAll(p + s, p) == RemoveAll(s, p)
  {
    assert (p + s)[..|p|] == p;
    assert (p + s)[|p|..] == s;
  }
}
