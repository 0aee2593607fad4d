/**
 * The JavaScript string operations the core relies on: `toUpperCase`,
 * `toLowerCase` (ASCII letters only), `trim`, `includes`, and `split(sep)[0]`.
 */
module Text {

  function UpperChar(c: char): (r: char)
    ensures 'a' <= c <= 'z' ==> r as int == c as int - 32
    ensures !('a' <= c <= 'z') ==> r == c
  {
    if 'a' <= c <= 'z' then (c as int - 32) as char else c
  }

  function LowerChar(c: char): (r: char)
    ensures 'A' <= c <= 'Z' ==> r as int == c as int + 32
    ensures !('A' <= c <= 'Z') ==> r == c
  {
    if 'A' <= c <= 'Z' then (c as int + 32) as char else c
  }

  /** `s.toUpperCase()` on the ASCII letters. */
  function Upper(s: string): (r: string)
    ensures |r| == |s|
    ensures forall i :: 0 <= i < |s| ==> r[i] == UpperChar(s[i])
  {
    seq(|s|, i requires 0 <= i < |s| => UpperChar(s[i]))
  }

  /** `s.toLowerCase()` on the ASCII letters. */
  function Lower(s: string): (r: string)
    ensures |r| == |s|
    ensures forall i :: 0 <= i < |s| ==> r[i] == LowerChar(s[i])
  {
    seq(|s|, i requires 0 <= i < |s| => LowerChar(s[i]))
  }

  predicate NoLowercase(s: string) {
    forall i :: 0 <= i < |s| ==> !('a' <= s[i] <= 'z')
  }

  lemma UpperHasNoLowercase(s: string)
    ensures NoLowercase(Upper(s))
  {
  }

  lemma UpperIdempotent(s: string)
    ensures Upper(Upper(s)) == Upper(s)
  {
  }

  /** Case-insensitive equality as the source writes it: `a.toUpperCase() === b.toUpperCase()`. */
  predicate SameIgnoringCase(a: string, b: string) {
    Upper(a) == Upper(b)
  }

  /**
   * The characters `String.prototype.trim` removes: the ECMAScript
   * WhiteSpace and LineTerminator code points.
   */
  predicate IsWhitespace(c: char) {
    || c == ' ' || c == '\t' || c == '\n' || c == '\r'
    || c == '\U{000B}' || c == '\U{000C}' || c == '\U{00A0}' || c == '\U{FEFF}'
    || c == '\U{1680}' || ('\U{2000}' <= c <= '\U{200A}')
    || c == '\U{2028}' || c == '\U{2029}' || c == '\U{202F}' || c == '\U{205F}' || c == '\U{3000}'
  }

  function TrimStart(s: string): (r: string)
    ensures |r| <= |s| && r == s[|s| - |r|..]
    ensures r == [] || !IsWhitespace(r[0])
    ensures forall i :: 0 <= i < |s| - |r| ==> IsWhitespace(s[i])
  {
    if s != [] && IsWhitespace(s[0]) then TrimStart(s[1..]) else s
  }

  function TrimEnd(s: string): (r: string)
    ensures |r| <= |s| && r == s[..|r|]
    ensures r == [] || !IsWhitespace(r[|r| - 1])
    ensures forall i :: |r| <= i < |s| ==> IsWhitespace(s[i])
  {
    if s != [] && IsWhitespace(s[|s| - 1]) then TrimEnd(s[..|s| - 1]) else s
  }

  /** `s.trim()`: the longest infix with no whitespace at either end. */
  function Trim(s: string): (r: string)
  {
    TrimEnd(TrimStart(s))
  }

  /** No whitespace at either end. */
  predicate Trimmed(s: string) {
    s == [] || (!IsWhitespace(s[0]) && !IsWhitespace(s[|s| - 1]))
  }

  /** `r` is `s[i..j]`, and everything of `s` outside it is whitespace. */
  predicate CutAt(s: string, r: string, i: nat, j: nat) {
    i <= j <= |s| && r == s[i..j]
    && (forall k :: 0 <= k < i ==> IsWhitespace(s[k]))
    && (forall k :: j <= k < |s| ==> IsWhitespace(s[k]))
  }

  /** `r` is `s` with only whitespace cut away before it and after it. */
  ghost predicate TrimOf(s: string, r: string) {
    exists i: nat, j: nat :: CutAt(s, r, i, j)
  }

  /** Where `trim` cuts: after the leading whitespace and before the trailing whitespace. */
  lemma TrimBounds(s: string)
    ensures CutAt(s, Trim(s), |s| - |TrimStart(s)|, |s| - |TrimStart(s)| + |Trim(s)|)
    ensures Trimmed(Trim(s))
  {
    var t := TrimStart(s);
    var r := TrimEnd(t);
    assert r == Trim(s);
    assert CutAt(s, r, |s| - |t|, |s| - |t| + |r|) by {
      CutTwice(s, t, r);
    }
    assert Trimmed(r) by {
      EndsTrimmed(t, r);
    }
  }

  /** Cutting a whitespace prefix and then a whitespace suffix is one whitespace cut. */
  lemma CutTwice(s: string, t: string, r: string)
    requires |t| <= |s| && t == s[|s| - |t|..] && forall k :: 0 <= k < |s| - |t| ==> IsWhitespace(s[k])
    requires |r| <= |t| && r == t[..|r|] && forall k :: |r| <= k < |t| ==> IsWhitespace(t[k])
    ensures CutAt(s, r, |s| - |t|, |s| - |t| + |r|)
  {
    var i := |s| - |t|;
    assert r == s[i..i + |r|];
    assert forall k :: i + |r| <= k < |s| ==> s[k] == t[k - i];
  }

  lemma EndsTrimmed(t: string, r: string)
    requires t == [] || !IsWhitespace(t[0])
    requires |r| <= |t| && r == t[..|r|] && (r == [] || !IsWhitespace(r[|r| - 1]))
    ensures Trimmed(r)
  {
    if r != [] {
      assert r[0] == t[0];
    }
  }

  lemma TrimIsInfix(s: string)
    ensures exists i, j :: 0 <= i <= j <= |s| && Trim(s) == s[i..j]
    ensures Trimmed(Trim(s))
  {
    TrimBounds(s);
    var i := |s| - |TrimStart(s)|;
    assert 0 <= i <= i + |Trim(s)| <= |s| && Trim(s) == s[i..i + |Trim(s)|];
  }

  /** Trimming drops characters and adds none: it keeps absences and upper case. */
  lemma TrimKeeps(s: string)
    ensures |Trim(s)| <= |s|
    ensures forall c :: c in Trim(s) ==> c in s
    ensures NoLowercase(s) ==> NoLowercase(Trim(s))
    ensures Trimmed(Trim(s))
  {
    TrimBounds(s);
    var i := |s| - |TrimStart(s)|;
    assert forall k :: 0 <= k < |Trim(s)| ==> Trim(s)[k] == s[i + k];
  }

  lemma TrimCutsWhitespace(s: string)
    ensures TrimOf(s, Trim(s))
  {
    TrimBounds(s);
  }

  /** Cutting whitespace until none is left at either end gives exactly what `trim` gives. */
  lemma TrimOfIsTrim(s: string, r: string)
    requires TrimOf(s, r) && Trimmed(r)
    ensures r == Trim(s)
  {
    var i: nat, j: nat :| CutAt(s, r, i, j);
    TrimBounds(s);
    SameCut(s, r, i, j, Trim(s), |s| - |TrimStart(s)|, |s| - |TrimStart(s)| + |Trim(s)|);
  }

  /** Two whitespace cuts with no whitespace left at either end are the same cut. */
  lemma SameCut(s: string, r1: string, i1: nat, j1: nat, r2: string, i2: nat, j2: nat)
    requires CutAt(s, r1, i1, j1) && Trimmed(r1)
    requires CutAt(s, r2, i2, j2) && Trimmed(r2)
    ensures r1 == r2
  {
    if r1 != [] {
      assert s[i1] == r1[0] && s[j1 - 1] == r1[|r1| - 1];
      NoWhitespaceBefore(s, i1, i2);
      NoWhitespaceAfter(s, i1 + 1, j2);
    }
    if r2 != [] {
      assert s[i2] == r2[0] && s[j2 - 1] == r2[|r2| - 1];
      NoWhitespaceBefore(s, i2, i1);
      NoWhitespaceAfter(s, i2 + 1, j1);
    }
    if r1 != [] && r2 != [] {
      NoWhitespaceAfter(s, j1, j2);
      NoWhitespaceAfter(s, j2, j1);
    }
  }

  /** A whitespace-only prefix ends at or before the first other character. */
  lemma NoWhitespaceBefore(s: string, i: nat, n: nat)
    requires i < |s| && !IsWhitespace(s[i])
    requires forall k :: 0 <= k < n && k < |s| ==> IsWhitespace(s[k])
    ensures n <= i
  {
  }

  /** A whitespace-only suffix starts after the last other character. */
  lemma NoWhitespaceAfter(s: string, j: nat, n: nat)
    requires 0 < j <= |s| && !IsWhitespace(s[j - 1])
    requires forall k :: n <= k < |s| ==> IsWhitespace(s[k])
    ensures j <= n
  {
  }

  /** `s.includes(sub)`. */
  predicate Contains(s: string, sub: string) {
    sub <= s || (s != [] && Contains(s[1..], sub))
  }

  /** `Contains` finds `sub` wherever it starts. */
  lemma {:induction false} ContainsAt(s: string, sub: string, i: nat)
    requires i + |sub| <= |s| && s[i..i + |sub|] == sub
    ensures Contains(s, sub)
  {
    if i > 0 {
      assert s[1..][i - 1..i - 1 + |sub|] == sub;
      ContainsAt(s[1..], sub, i - 1);
    } else {
      assert sub <= s;
    }
  }

  /** A string that lacks some character of `sub` does not contain `sub`. */
  lemma {:induction false} CharAbsent(s: string, sub: string, i: nat)
    requires i < |sub| && sub[i] !in s
    ensures !Contains(s, sub)
  {
    if s != [] {
      assert forall c :: c in s[1..] ==> c in s;
      CharAbsent(s[1..], sub, i);
    }
  }

  /** `s.split(sep)[0]`: everything before the first occurrence of `sep`. */
  function BeforeFirst(s: string, sep: char): (r: string)
    ensures |r| <= |s| && r == s[..|r|]
    ensures sep !in r
    ensures |r| < |s| ==> s[|r|] == sep
  {
    if s == [] then []
    else if s[0] == sep then []
    else [s[0]] + BeforeFirst(s[1..], sep)
  }

  /** The decimal digits of `n`, as a template literal renders a status code. */
  function NatToString(n: nat): (r: string)
    ensures |r| >= 1
    ensures forall i :: 0 <= i < |r| ==> '0' <= r[i] <= '9'
  {
    if n < 10 then [('0' as int + n) as char]
    else NatToString(n / 10) + [('0' as int + n % 10) as char]
  }
}
