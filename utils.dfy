/**
 * The string utilities of lib/utils/index.ts: `truncate`, `slugify` and the
 * email, Nigerian phone number and VIN validators. Each is a pure function
 * of its input string.
 */
module Utils {

  import opened JsString
  import opened JsValue

  // ---------------------------------------------------------------- truncate

  /** `text.slice(0, end)` for an integer `end`; a negative `end` counts from the back. */
  function SliceTo(text: string, end: int): (r: string)
    ensures |r| <= |text| && r == text[..|r|]
    ensures 0 <= end <= |text| ==> |r| == end
    ensures end < 0 ==> |r| == if |text| + end < 0 then 0 else |text| + end
  {
    if end < 0 then (if |text| + end < 0 then [] else text[..|text| + end])
    else if end <= |text| then text[..end]
    else text
  }

  /**
   * `truncate(text, length)`: the text itself when it is at most `length`
   * characters long, otherwise its first `length` characters and "...".
   * `length` is any JavaScript number; `slice` drops its fraction.
   */
  function Truncate(text: string, length: real): (r: string)
    ensures |text| as real <= length ==> r == text
    ensures 0.0 <= length < |text| as real ==>
      r == text[..length.Floor] + "..." && |r| == length.Floor + 3
    ensures length < |text| as real ==>
      |r| >= 3 && r[|r| - 3..] == "..." && StartsWith(text, r[..|r| - 3])
  {
    if |text| as real <= length then text
    else
      var kept := SliceTo(text, ToIntegerTowardZero(length));
      assert (kept + "...")[..|kept|] == kept;
      kept + "..."
  }

  /**
   * A fractional length acts as its whole part: `truncate("abc", 2.5)`
   * is `truncate("abc", 2)`, that is "ab...".
   */
  lemma TruncateDropsFraction(text: string, length: real)
    requires length >= 0.0
    ensures Truncate(text, length) == Truncate(text, length.Floor as real)
  {
  }

  // ----------------------------------------------------------------- slugify

  /** The characters `/[^a-z0-9 -]/g` leaves in place. */
  predicate IsKeptChar(c: char) {
    'a' <= c <= 'z' || IsDigit(c) || c == ' ' || c == '-'
  }

  /** The characters a slug is made of: `[a-z0-9-]`. */
  predicate IsSlugChar(c: char) {
    'a' <= c <= 'z' || IsDigit(c) || c == '-'
  }

  predicate IsHyphen(c: char) {
    c == '-'
  }

  /** `s.replace(/[^a-z0-9 -]/g, "")`. */
  function KeepSlugChars(s: string): (r: string)
    ensures forall i :: 0 <= i < |r| ==> IsKeptChar(r[i])
  {
    if s == [] then []
    else if IsKeptChar(s[0]) then [s[0]] + KeepSlugChars(s[1..])
    else KeepSlugChars(s[1..])
  }

  /** The suffix of `s` left after its leading characters satisfying `p`. */
  function DropRun(s: string, p: char -> bool): (r: string)
    ensures |r| <= |s| && r == s[|s| - |r|..]
    ensures r == [] || !p(r[0])
    ensures forall i :: 0 <= i < |s| - |r| ==> p(s[i])
  {
    if s != [] && p(s[0]) then
      var r := DropRun(s[1..], p);
      assert s[1..][|s| - 1 - |r|..] == s[|s| - |r|..];
      assert forall i :: 1 <= i < |s| - |r| ==> s[i] == s[1..][i - 1];
      r
    else s
  }

  /** The prefix of `s` left after its trailing characters satisfying `p`. */
  function DropRunEnd(s: string, p: char -> bool): (r: string)
    ensures |r| <= |s| && r == s[..|r|]
    ensures r == [] || !p(r[|r| - 1])
    ensures forall i :: |r| <= i < |s| ==> p(s[i])
  {
    if s != [] && p(s[|s| - 1]) then DropRunEnd(s[..|s| - 1], p) else s
  }

  /** `s.trim()`. */
  function Trim(s: string): string {
    DropRunEnd(DropRun(s, IsWhitespace), IsWhitespace)
  }

  /**
   * `s.replace(/X+/g, "-")` where `X` matches exactly the characters
   * satisfying `p`: every maximal run of them becomes a single hyphen.
   */
  function CollapseRuns(s: string, p: char -> bool): string
    decreases |s|
  {
    if s == [] then []
    else if p(s[0]) then "-" + CollapseRuns(DropRun(s[1..], p), p)
    else [s[0]] + CollapseRuns(s[1..], p)
  }

  /** `slugify(text)`: lower-case, drop foreign characters, hyphenate spaces, collapse hyphens, trim. */
  function Slugify(text: string): string {
    Trim(CollapseRuns(CollapseRuns(KeepSlugChars(ToLower(text)), IsWhitespace), IsHyphen))
  }

  predicate NoDoubleHyphen(s: string) {
    forall i :: 0 <= i < |s| - 1 ==> !(s[i] == '-' && s[i + 1] == '-')
  }

  predicate AllSlugChars(s: string) {
    forall i :: 0 <= i < |s| ==> IsSlugChar(s[i])
  }

  /** Collapsing runs keeps every character property that the hyphen and the run-free characters share. */
  lemma {:induction false} CollapseRunsKeeps(s: string, p: char -> bool, q: char -> bool)
    requires forall i :: 0 <= i < |s| ==> p(s[i]) || q(s[i])
    requires q('-')
    ensures forall i :: 0 <= i < |CollapseRuns(s, p)| ==> q(CollapseRuns(s, p)[i])
    decreases |s|
  {
    if s != [] {
      if p(s[0]) {
        var t := DropRun(s[1..], p);
        assert forall i :: 0 <= i < |t| ==> t[i] == s[|s| - |t| + i];
        CollapseRunsKeeps(t, p, q);
      } else {
        CollapseRunsKeeps(s[1..], p, q);
      }
    }
  }

  /** A collapsed string starts with the first character of its input, or a hyphen if that begins a run. */
  lemma CollapseRunsHead(s: string, p: char -> bool)
    requires s != []
    ensures CollapseRuns(s, p) != []
    ensures CollapseRuns(s, p)[0] == if p(s[0]) then '-' else s[0]
  {
  }

  /** When hyphens are run characters, no two hyphens are adjacent after collapsing. */
  lemma {:induction false} CollapseRunsNoDoubleHyphen(s: string, p: char -> bool)
    requires p('-')
    ensures NoDoubleHyphen(CollapseRuns(s, p))
    decreases |s|
  {
    if s != [] {
      var r := CollapseRuns(s, p);
      if p(s[0]) {
        var t := DropRun(s[1..], p);
        CollapseRunsNoDoubleHyphen(t, p);
        if t != [] { CollapseRunsHead(t, p); }
        assert r == "-" + CollapseRuns(t, p);
      } else {
        CollapseRunsNoDoubleHyphen(s[1..], p);
        assert r == [s[0]] + CollapseRuns(s[1..], p);
        assert s[0] != '-';
      }
    }
  }

  /** A string whose run characters are isolated hyphens is left unchanged. */
  lemma {:induction false} CollapseRunsNoop(s: string, p: char -> bool)
    requires forall i :: 0 <= i < |s| ==> p(s[i]) ==> s[i] == '-'
    requires forall i :: 0 <= i < |s| - 1 ==> !(p(s[i]) && p(s[i + 1]))
    ensures CollapseRuns(s, p) == s
    decreases |s|
  {
    if s != [] {
      CollapseRunsNoop(s[1..], p);
      if p(s[0]) {
        assert s[1..] == [] || !p(s[1..][0]);
        assert DropRun(s[1..], p) == s[1..];
        assert s == "-" + s[1..];
      } else {
        assert s == [s[0]] + s[1..];
      }
    }
  }

  /** A collapsed string ends with a hyphen when its input ends with a run character. */
  lemma {:induction false} CollapseRunsLast(s: string, p: char -> bool)
    requires s != [] && p(s[|s| - 1])
    ensures CollapseRuns(s, p) != [] && CollapseRuns(s, p)[|CollapseRuns(s, p)| - 1] == '-'
    decreases |s|
  {
    if p(s[0]) {
      var t := DropRun(s[1..], p);
      if t != [] {
        assert t[|t| - 1] == s[|s| - 1];
        CollapseRunsLast(t, p);
      }
    } else {
      CollapseRunsLast(s[1..], p);
    }
  }

  lemma {:induction false} KeepSlugCharsAppend(a: string, b: string)
    ensures KeepSlugChars(a + b) == KeepSlugChars(a) + KeepSlugChars(b)
  {
    if a == [] {
      assert a + b == b;
    } else {
      assert (a + b)[0] == a[0];
      assert (a + b)[1..] == a[1..] + b;
      KeepSlugCharsAppend(a[1..], b);
    }
  }

  lemma {:induction false} KeepSlugCharsNoop(s: string)
    requires forall i :: 0 <= i < |s| ==> IsKeptChar(s[i])
    ensures KeepSlugChars(s) == s
  {
    if s != [] { KeepSlugCharsNoop(s[1..]); }
  }

  /** Trimming leaves a string that neither starts nor ends with white space unchanged. */
  lemma TrimNoop(s: string)
    requires s == [] || (!IsWhitespace(s[0]) && !IsWhitespace(s[|s| - 1]))
    ensures Trim(s) == s
  {
  }

  /**
   * A slug consists of `[a-z0-9-]` only and never holds two hyphens in a row.
   */
  lemma SlugifyShape(text: string)
    ensures AllSlugChars(Slugify(text))
    ensures NoDoubleHyphen(Slugify(text))
  {
    var a := KeepSlugChars(ToLower(text));
    var b := CollapseRuns(a, IsWhitespace);
    var c := CollapseRuns(b, IsHyphen);
    CollapseRunsKeeps(a, IsWhitespace, IsSlugChar);
    CollapseRunsKeeps(b, IsHyphen, IsSlugChar);
    CollapseRunsNoDoubleHyphen(b, IsHyphen);
    TrimNoop(c);
  }

  /** A string of slug characters without doubled hyphens is its own slug. */
  lemma SlugFixedPoint(s: string)
    requires AllSlugChars(s) && NoDoubleHyphen(s)
    ensures Slugify(s) == s
  {
    forall i | 0 <= i < |s|
      ensures LowerChar(s[i]) == s[i] && IsKeptChar(s[i]) && !IsWhitespace(s[i])
    {
      assert IsSlugChar(s[i]);
    }
    assert ToLower(s) == s;
    KeepSlugCharsNoop(s);
    CollapseRunsNoop(s, IsWhitespace);
    CollapseRunsNoop(s, IsHyphen);
    TrimNoop(s);
  }

  /** Slugifying a slug changes nothing. */
  lemma SlugifyIdempotent(text: string)
    ensures Slugify(Slugify(text)) == Slugify(text)
  {
    SlugifyShape(text);
    SlugFixedPoint(Slugify(text));
  }

  /** `trim` keeps a first character that is not white space. */
  lemma TrimKeepsHead(s: string)
    requires s != [] && !IsWhitespace(s[0])
    ensures Trim(s) != [] && Trim(s)[0] == s[0]
  {
    assert DropRun(s, IsWhitespace) == s;
  }

  /** `trim` keeps a last character that is not white space. */
  lemma TrimKeepsLast(s: string)
    requires s != [] && !IsWhitespace(s[|s| - 1])
    ensures Trim(s) != [] && Trim(s)[|Trim(s)| - 1] == s[|s| - 1]
  {
    var t := DropRun(s, IsWhitespace);
    assert t != [] && t[|t| - 1] == s[|s| - 1];
    assert DropRunEnd(t, IsWhitespace) == t;
  }

  /** `trim` runs after the hyphens are made, so a leading space becomes a leading hyphen. */
  lemma SlugifyKeepsLeadingHyphen(text: string)
    requires text != [] && text[0] == ' '
    ensures Slugify(text) != [] && Slugify(text)[0] == '-'
  {
    var low := ToLower(text);
    assert low[0] == ' ';
    var a := KeepSlugChars(low);
    assert a != [] && a[0] == ' ';
    var b := CollapseRuns(a, IsWhitespace);
    CollapseRunsHead(a, IsWhitespace);
    CollapseRunsHead(b, IsHyphen);
    TrimKeepsHead(CollapseRuns(b, IsHyphen));
  }

  /** Likewise a trailing space becomes a trailing hyphen. */
  lemma SlugifyKeepsTrailingHyphen(text: string)
    requires text != [] && text[|text| - 1] == ' '
    ensures Slugify(text) != [] && Slugify(text)[|Slugify(text)| - 1] == '-'
  {
    var low := ToLower(text);
    var n := |low| - 1;
    assert low[n] == ' ';
    KeepSlugCharsAppend(low[..n], [low[n]]);
    assert low == low[..n] + [low[n]];
    var a := KeepSlugChars(low);
    assert a == KeepSlugChars(low[..n]) + [' '];
    var b := CollapseRuns(a, IsWhitespace);
    CollapseRunsLast(a, IsWhitespace);
    CollapseRunsLast(b, IsHyphen);
    TrimKeepsLast(CollapseRuns(b, IsHyphen));
  }

  // -------------------------------------------------------------- validators

  predicate IsEmailChar(c: char) {
    !IsWhitespace(c) && c != '@'
  }

  predicate AllEmailChars(s: string) {
    forall i :: 0 <= i < |s| ==> IsEmailChar(s[i])
  }

  /** The part after `@` in `/^[^\s@]+@[^\s@]+\.[^\s@]+$/`: a dot with text on both sides. */
  predicate IsEmailDomain(d: string) {
    AllEmailChars(d) && exists k | 0 < k < |d| - 1 :: d[k] == '.'
  }

  /** `isValidEmail(email)`: the regular expression `/^[^\s@]+@[^\s@]+\.[^\s@]+$/` matches. */
  predicate IsValidEmail(email: string) {
    exists at | 0 < at < |email| ::
      email[at] == '@' && AllEmailChars(email[..at]) && IsEmailDomain(email[at + 1..])
  }

  /**
   * No white space, exactly one `@` with text before it, and a `.` after
   * the `@` with text on both sides.
   */
  predicate EmailShape(email: string) {
    (forall i :: 0 <= i < |email| ==> !IsWhitespace(email[i]))
    && (exists at | 0 < at < |email| :: email[at] == '@'
          && (forall j :: 0 <= j < |email| && email[j] == '@' ==> j == at)
          && (exists k | at + 1 < k < |email| - 1 :: email[k] == '.'))
  }

  /** An address is valid exactly when it has the shape `EmailShape` describes. */
  lemma ValidEmailShape(email: string)
    ensures IsValidEmail(email) <==> EmailShape(email)
  {
    if IsValidEmail(email) {
      ValidEmailHasShape(email);
    }
    if EmailShape(email) {
      ShapedEmailIsValid(email);
    }
  }

  lemma ValidEmailHasShape(email: string)
    requires IsValidEmail(email)
    ensures EmailShape(email)
  {
    var at :| 0 < at < |email| && email[at] == '@' && AllEmailChars(email[..at])
      && IsEmailDomain(email[at + 1..]);
    var d := email[at + 1..];
    forall i | 0 <= i < |email| ensures !IsWhitespace(email[i]) {
      if i < at { assert email[..at][i] == email[i]; }
      else if i > at { assert d[i - at - 1] == email[i]; }
    }
    forall j | 0 <= j < |email| && j != at ensures email[j] != '@' {
      if j < at { assert email[..at][j] == email[j]; }
      else { assert d[j - at - 1] == email[j]; }
    }
    var k :| 0 < k < |d| - 1 && d[k] == '.';
    assert email[at + 1 + k] == '.';
  }

  lemma ShapedEmailIsValid(email: string)
    requires EmailShape(email)
    ensures IsValidEmail(email)
  {
    var at :| 0 < at < |email| && email[at] == '@'
      && (forall j :: 0 <= j < |email| && email[j] == '@' ==> j == at)
      && (exists k | at + 1 < k < |email| - 1 :: email[k] == '.');
    var k :| at + 1 < k < |email| - 1 && email[k] == '.';
    var d := email[at + 1..];
    assert d[k - at - 1] == '.';
    assert AllEmailChars(email[..at]);
    assert AllEmailChars(d);
  }

  /** `[789][01]\d{8}`: a ten-digit Nigerian mobile number without its prefix. */
  predicate IsNationalNumber(s: string) {
    |s| == 10 && s[0] in "789" && s[1] in "01" && forall i :: 2 <= i < 10 ==> IsDigit(s[i])
  }

  /** `/^(\+234|234|0)?[789][01]\d{8}$/.test(s)`. */
  predicate MatchesPhone(s: string) {
    IsNationalNumber(s)
    || (StartsWith(s, "0") && IsNationalNumber(s[1..]))
    || (StartsWith(s, "234") && IsNationalNumber(s[3..]))
    || (StartsWith(s, "+234") && IsNationalNumber(s[4..]))
  }

  /** `isValidPhone(phone)`: white space is removed before matching. */
  predicate IsValidPhone(phone: string) {
    MatchesPhone(RemoveWhitespace(phone))
  }

  /**
   * A phone number matches exactly when its last ten characters form a
   * national number and what precedes them is one of the four prefixes.
   */
  lemma MatchesPhoneByPrefix(s: string)
    ensures MatchesPhone(s) <==>
      |s| >= 10 && s[..|s| - 10] in ["", "0", "234", "+234"] && IsNationalNumber(s[|s| - 10..])
  {
    if |s| >= 10 {
      var pre := s[..|s| - 10];
      if |pre| == 0 { assert s[|s| - 10..] == s; }
      if pre == "0" { assert s[1..] == s[|s| - 10..]; }
      if pre == "234" { assert s[3..] == s[|s| - 10..]; }
      if pre == "+234" { assert s[4..] == s[|s| - 10..]; }
      if StartsWith(s, "0") && IsNationalNumber(s[1..]) { assert pre == s[..1]; }
      if StartsWith(s, "234") && IsNationalNumber(s[3..]) { assert pre == s[..3]; }
      if StartsWith(s, "+234") && IsNationalNumber(s[4..]) { assert pre == s[..4]; }
    }
  }

  /** A white-space character anywhere in the input never changes the verdict. */
  lemma PhoneIgnoresWhitespace(a: string, c: char, b: string)
    requires IsWhitespace(c)
    ensures IsValidPhone(a + [c] + b) == IsValidPhone(a + b)
  {
    RemoveWhitespaceAppend(a + [c], b);
    RemoveWhitespaceAppend(a, [c]);
    RemoveWhitespaceAppend(a, b);
    assert RemoveWhitespace([c]) == [];
    assert RemoveWhitespace(a) + [] == RemoveWhitespace(a);
  }

  /** `[A-HJ-NPR-Z0-9]` matched case-insensitively (the `i` flag compares upper-cased characters). */
  predicate IsVinChar(c: char) {
    var u := UpperChar(c);
    ('A' <= u <= 'H') || ('J' <= u <= 'N') || u == 'P' || ('R' <= u <= 'Z') || IsDigit(u)
  }

  /** `isValidVIN(vin)`: `/^[A-HJ-NPR-Z0-9]{17}$/i.test(vin)`. */
  predicate IsValidVin(vin: string) {
    |vin| == 17 && forall i :: 0 <= i < |vin| ==> IsVinChar(vin[i])
  }

  /** The VIN alphabet is the digits and the letters of either case other than I, O and Q. */
  lemma VinCharAlphabet(c: char)
    ensures IsVinChar(c) <==>
      IsDigit(c) || (('A' <= c <= 'Z' || 'a' <= c <= 'z') && c !in "IOQioq")
  {
  }
}
