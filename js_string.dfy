/**
 * The JavaScript string operations the client calls: `includes`,
 * `replace` with a string pattern (first occurrence only), the regular
 * expression class `\s`, and case mapping (ASCII letters only).
 */
module JsString {

  import opened Wrappers

  /** `pat` occurs in `s` starting at index `i`. */
  predicate OccursAt(s: string, pat: string, i: int) {
    0 <= i && i + |pat| <= |s| && s[i..i + |pat|] == pat
  }

  /** `s.includes(pat)`. */
  predicate Includes(s: string, pat: string) {
    exists i | 0 <= i <= |s| :: OccursAt(s, pat, i)
  }

  predicate StartsWith(s: string, pat: string) {
    |pat| <= |s| && s[..|pat|] == pat
  }

  /** The first index at or after `k` where `pat` occurs, as `s.indexOf(pat, k)`. */
  function IndexFrom(s: string, pat: string, k: nat): (r: Option<nat>)
    requires k <= |s|
    decreases |s| - k
    ensures r.Some? ==> k <= r.value && OccursAt(s, pat, r.value)
    ensures r.Some? ==> forall j :: k <= j < r.value ==> !OccursAt(s, pat, j)
    ensures r.None? ==> forall j :: k <= j ==> !OccursAt(s, pat, j)
  {
    if k + |pat| > |s| then None
    else if s[k..k + |pat|] == pat then Some(k)
    else
      assert |pat| > 0;
      IndexFrom(s, pat, k + 1)
  }

  /** `s.indexOf(pat)`, with `None` for -1. */
  function IndexOf(s: string, pat: string): (r: Option<nat>)
    ensures r.Some? <==> Includes(s, pat)
    ensures r.Some? ==> OccursAt(s, pat, r.value)
    ensures r.Some? ==> forall j :: 0 <= j < r.value ==> !OccursAt(s, pat, j)
  {
    IndexFrom(s, pat, 0)
  }

  /**
   * `s.replace(pat, rep)` with a string pattern: only the first occurrence
   * of `pat` is replaced, and `s` is returned unchanged when there is none.
   */
  function ReplaceFirst(s: string, pat: string, rep: string): (r: string)
    ensures !Includes(s, pat) ==> r == s
    ensures Includes(s, pat) ==> |r| == |s| - |pat| + |rep|
    ensures Includes(s, pat) ==>
      exists i | 0 <= i <= |s| - |pat| ::
        OccursAt(s, pat, i) && (forall j :: 0 <= j < i ==> !OccursAt(s, pat, j))
        && r == s[..i] + rep + s[i + |pat|..]
  {
    match IndexOf(s, pat)
    case None => s
    case Some(i) => s[..i] + rep + s[i + |pat|..]
  }

  /** Only the first of two leading copies of a pattern is replaced. */
  lemma ReplaceFirstOfRepeated(pat: string, rest: string, rep: string)
    requires pat != ""
    ensures ReplaceFirst(pat + pat + rest, pat, rep) == rep + pat + rest
  {
    var s := pat + pat + rest;
    assert OccursAt(s, pat, 0) by { assert s[0..|pat|] == pat; }
    assert IndexOf(s, pat) == Some(0);
    assert s[|pat|..] == pat + rest;
  }

  /** JavaScript's `\s` (and the set `trim` removes): white space and line terminators. */
  predicate IsWhitespace(c: char) {
    c == ' ' || c == '\t' || c == '\n' || c == '\r' || c == '\U{000B}' || c == '\U{000C}'
    || c == '\U{00A0}' || c == '\U{1680}' || ('\U{2000}' <= c <= '\U{200A}')
    || c == '\U{2028}' || c == '\U{2029}' || c == '\U{202F}' || c == '\U{205F}'
    || c == '\U{3000}' || c == '\U{FEFF}'
  }

  /** The characters regular-expression `.` does not match. */
  predicate IsLineTerminator(c: char) {
    c == '\n' || c == '\r' || c == '\U{2028}' || c == '\U{2029}'
  }

  predicate IsDigit(c: char) {
    '0' <= c <= '9'
  }

  function LowerChar(c: char): char {
    if 'A' <= c <= 'Z' then (c as int + 32) as char else c
  }

  function UpperChar(c: char): char {
    if 'a' <= c <= 'z' then (c as int - 32) as char else c
  }

  /** `s.toLowerCase()` on ASCII letters. */
  function ToLower(s: string): (r: string)
    ensures |r| == |s|
    ensures forall i :: 0 <= i < |s| ==> r[i] == LowerChar(s[i])
  {
    seq(|s|, i requires 0 <= i < |s| => LowerChar(s[i]))
  }

  /** `s.toUpperCase()` on ASCII letters. */
  function ToUpper(s: string): (r: string)
    ensures |r| == |s|
    ensures forall i :: 0 <= i < |s| ==> r[i] == UpperChar(s[i])
  {
    seq(|s|, i requires 0 <= i < |s| => UpperChar(s[i]))
  }

  /** `s.replace(/\s/g, "")`: every white-space character removed. */
  function RemoveWhitespace(s: string): (r: string)
    ensures |r| <= |s|
    ensures forall i :: 0 <= i < |r| ==> !IsWhitespace(r[i])
  {
    if s == [] then []
    else if IsWhitespace(s[0]) then RemoveWhitespace(s[1..])
    else [s[0]] + RemoveWhitespace(s[1..])
  }

  /** Removing white space distributes over concatenation. */
  lemma {:induction false} RemoveWhitespaceAppend(a: string, b: string)
    ensures RemoveWhitespace(a + b) == RemoveWhitespace(a) + RemoveWhitespace(b)
  {
    if a != [] {
      assert (a + b)[0] == a[0];
      assert (a + b)[1..] == a[1..] + b;
      RemoveWhitespaceAppend(a[1..], b);
    } else {
      assert a + b == b;
    }
  }

  /** Removing white space leaves a string without white space unchanged. */
  lemma {:induction false} RemoveWhitespaceNoop(s: string)
    requires forall i :: 0 <= i < |s| ==> !IsWhitespace(s[i])
    ensures RemoveWhitespace(s) == s
  {
    if s != [] {
      RemoveWhitespaceNoop(s[1..]);
    }
  }

  /**
   * Replacing the first occurrence of a one-character pattern by one
   * character overwrites that single position and nothing else.
   */
  lemma ReplaceFirstChar(s: string, a: char, b: char)
    ensures IndexOf(s, [a]).None? ==> ReplaceFirst(s, [a], [b]) == s
    ensures IndexOf(s, [a]).Some? ==>
      IndexOf(s, [a]).value < |s| && ReplaceFirst(s, [a], [b]) == s[IndexOf(s, [a]).value := b]
  {
    match IndexOf(s, [a])
    case None =>
    case Some(i) =>
      assert OccursAt(s, [a], i);
      var r := s[..i] + [b] + s[i + 1..];
      assert |r| == |s|;
      assert forall k :: 0 <= k < |s| ==> r[k] == s[i := b][k];
  }

  /** A one-character pattern is found at the first index holding that character. */
  lemma IndexOfChar(s: string, a: char, i: nat)
    ensures a !in s ==> IndexOf(s, [a]).None?
    ensures i < |s| && s[i] == a && a !in s[..i] ==> IndexOf(s, [a]) == Some(i)
  {
    forall j | 0 <= j < |s| && OccursAt(s, [a], j)
      ensures s[j] == a
    {
      assert s[j..j + 1][0] == s[j];
    }
    if i < |s| && s[i] == a && a !in s[..i] {
      assert s[i..i + 1] == [a];
      assert OccursAt(s, [a], i);
    }
  }

  /** Replacing the first `x` in `a + [x] + b`, where `a` holds no `x`, gives `a + [y] + b`. */
  lemma ReplaceFirstCharSplit(a: string, x: char, b: string, y: char)
    requires x !in a
    ensures ReplaceFirst(a + [x] + b, [x], [y]) == a + [y] + b
  {
    var s := a + [x] + b;
    assert s[..|a|] == a;
    IndexOfChar(s, x, |a|);
    ReplaceFirstChar(s, x, y);
    assert s[|a| := y] == a + [y] + b;
  }

  /** `s.replace(/^./, c => c.toUpperCase())`: `.` does not match a line terminator. */
  function UpperFirstMatch(s: string): (r: string)
    ensures |r| == |s|
  {
    if |s| > 0 && !IsLineTerminator(s[0]) then [UpperChar(s[0])] + s[1..] else s
  }

  /** `s.charAt(0).toUpperCase() + s.slice(1)`. */
  function UpperCharAt(s: string): (r: string)
    ensures |r| == |s|
  {
    if |s| == 0 then "" else [UpperChar(s[0])] + s[1..]
  }

  /**
   * The two spellings agree on every string: the one character the regular
   * expression skips is a line terminator, which upper-casing leaves as it
   * is. Either way only the first character can change.
   */
  lemma UpperFirstForms(s: string)
    ensures UpperFirstMatch(s) == UpperCharAt(s)
    ensures |s| > 0 ==> UpperCharAt(s)[0] == UpperChar(s[0]) && UpperCharAt(s)[1..] == s[1..]
  {
    if |s| > 0 && IsLineTerminator(s[0]) {
      assert UpperChar(s[0]) == s[0];
      assert [s[0]] + s[1..] == s;
    }
  }
}
