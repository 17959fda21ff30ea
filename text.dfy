/**
 * The few java.lang.String operations the core relies on, over `seq<char>`.
 * Case mapping is ASCII only: it is how `toLowerCase(Locale.ROOT)`,
 * `toUpperCase()` and `equalsIgnoreCase` behave on ASCII text.
 */
module Text {

  function LowerChar(c: char): char {
    if 'A' <= c <= 'Z' then (c as int + 32) as char else c
  }

  function UpperChar(c: char): char {
    if 'a' <= c <= 'z' then (c as int - 32) as char else c
  }

  /** `s.toLowerCase(Locale.ROOT)` on ASCII text. */
  function Lower(s: string): (r: string)
    ensures |r| == |s|
    ensures forall i :: 0 <= i < |s| ==> r[i] == LowerChar(s[i])
  {
    seq(|s|, i requires 0 <= i < |s| => LowerChar(s[i]))
  }

  /** `s.toUpperCase()` on ASCII text. */
  function Upper(s: string): (r: string)
    ensures |r| == |s|
    ensures forall i :: 0 <= i < |s| ==> r[i] == UpperChar(s[i])
  {
    seq(|s|, i requires 0 <= i < |s| => UpperChar(s[i]))
  }

  /** A character `String.trim` removes: every code point up to and including the space. */
  predicate IsTrimmed(c: char) {
    c <= ' '
  }

  function TrimStart(s: string): string {
    if |s| > 0 && IsTrimmed(s[0]) then TrimStart(s[1..]) else s
  }

  function TrimEnd(s: string): string {
    if |s| > 0 && IsTrimmed(s[|s| - 1]) then TrimEnd(s[..|s| - 1]) else s
  }

  /** `String.trim()`. */
  function Trim(s: string): string {
    TrimEnd(TrimStart(s))
  }

  lemma {:induction false} TrimStartShape(s: string)
    ensures |TrimStart(s)| <= |s| && TrimStart(s) == s[|s| - |TrimStart(s)|..]
    ensures TrimStart(s) == [] || !IsTrimmed(TrimStart(s)[0])
  {
    if |s| > 0 && IsTrimmed(s[0]) {
      TrimStartShape(s[1..]);
    }
  }

  lemma {:induction false} TrimEndShape(s: string)
    ensures |TrimEnd(s)| <= |s| && TrimEnd(s) == s[..|TrimEnd(s)|]
    ensures TrimEnd(s) == [] || !IsTrimmed(TrimEnd(s)[|TrimEnd(s)| - 1])
  {
    if |s| > 0 && IsTrimmed(s[|s| - 1]) {
      TrimEndShape(s[..|s| - 1]);
    }
  }

  /** A trimmed string neither starts nor ends with a trimmable character, so trimming again changes nothing. */
  lemma TrimmedEnds(s: string)
    ensures Trim(s) != [] ==> !IsTrimmed(Trim(s)[0]) && !IsTrimmed(Trim(s)[|Trim(s)| - 1])
    ensures Trim(Trim(s)) == Trim(s)
  {
    var t := TrimStart(s);
    TrimStartShape(s);
    TrimEndShape(t);
    var u := TrimEnd(t);
    if u != [] {
      assert u[0] == t[0];
    }
    TrimStartShape(u);
    TrimEndShape(u);
    assert TrimStart(u) == u;
  }

  /** `s.trim().isEmpty()`. */
  predicate IsBlank(s: string) {
    Trim(s) == ""
  }

  lemma {:induction false} TrimStartEmpty(s: string)
    ensures TrimStart(s) == [] <==> forall i :: 0 <= i < |s| ==> IsTrimmed(s[i])
  {
    if |s| > 0 && IsTrimmed(s[0]) {
      TrimStartEmpty(s[1..]);
      assert forall i :: 1 <= i < |s| ==> s[1..][i - 1] == s[i];
    }
  }

  lemma {:induction false} TrimEndKeepsFirst(s: string)
    requires s != [] && !IsTrimmed(s[0])
    ensures TrimEnd(s) != []
  {
    if |s| > 1 && IsTrimmed(s[|s| - 1]) {
      TrimEndKeepsFirst(s[..|s| - 1]);
    }
  }

  /** A string is blank exactly when every character of it is one that trimming removes. */
  lemma IsBlankIff(s: string)
    ensures IsBlank(s) <==> forall i :: 0 <= i < |s| ==> IsTrimmed(s[i])
  {
    TrimStartEmpty(s);
    TrimStartShape(s);
    var t := TrimStart(s);
    if t != [] {
      TrimEndKeepsFirst(t);
    }
  }

  /** Whatever equals a non-blank string's trimmed form, ignoring case, is not blank. */
  lemma BlankMatchesOnlyBlank(x: string, b: string)
    requires !IsBlank(x) && EqualsIgnoreCase(Trim(x), b)
    ensures !IsBlank(b)
  {
    TrimmedEnds(x);
    var n := Trim(x);
    assert |b| == |n| > 0;
    assert LowerChar(b[0]) == LowerChar(n[0]);
    IsBlankIff(b);
  }

  predicate StartsWith(s: string, prefix: string) {
    |prefix| <= |s| && s[..|prefix|] == prefix
  }

  predicate EndsWith(s: string, suffix: string) {
    |suffix| <= |s| && s[|s| - |suffix|..] == suffix
  }

  /** `s.contains(sub)`: `sub` occurs in `s` at some offset. */
  predicate Contains(s: string, sub: string)
    decreases |s|
  {
    StartsWith(s, sub) || (|s| > 0 && Contains(s[1..], sub))
  }

  /** `a.equalsIgnoreCase(b)` on ASCII text. */
  predicate EqualsIgnoreCase(a: string, b: string) {
    Lower(a) == Lower(b)
  }

  lemma ContainsEmpty(s: string)
    ensures Contains(s, "")
  {
    assert s[..0] == "";
  }

  lemma StartsWithAppend(p: string, q: string)
    ensures StartsWith(p + q, p)
  {
    assert (p + q)[..|p|] == p;
  }

  lemma {:induction false} ContainsAppendRight(p: string, q: string)
    ensures Contains(p + q, q)
  {
    if p == [] {
      assert p + q == q;
      StartsWithAppend(q, []);
      assert q + [] == q;
    } else {
      ContainsAppendRight(p[1..], q);
      assert (p + q)[1..] == p[1..] + q;
    }
  }

  /** Whatever occurs in q occurs in p + q. */
  lemma {:induction false} ContainsAfter(p: string, q: string, sub: string)
    requires Contains(q, sub)
    ensures Contains(p + q, sub)
  {
    if p == [] {
      assert p + q == q;
    } else {
      ContainsAfter(p[1..], q, sub);
      assert (p + q)[1..] == p[1..] + q;
    }
  }

  /** Whatever occurs in p occurs in p + q. */
  lemma {:induction false} ContainsBefore(p: string, q: string, sub: string)
    requires Contains(p, sub)
    ensures Contains(p + q, sub)
  {
    if StartsWith(p, sub) {
      assert (p + q)[..|sub|] == p[..|sub|];
    } else {
      ContainsBefore(p[1..], q, sub);
      assert (p + q)[1..] == p[1..] + q;
    }
  }

  /** Whatever occurs in a suffix of s occurs in s. */
  lemma EndsWithContains(s: string, suffix: string, sub: string)
    requires EndsWith(s, suffix) && Contains(suffix, sub)
    ensures Contains(s, sub)
  {
    assert s == s[..|s| - |suffix|] + suffix;
    ContainsAfter(s[..|s| - |suffix|], suffix, sub);
  }

  /** Two prefixes of one string are prefixes of each other. */
  lemma PrefixesAgree(s: string, p: string, q: string)
    requires StartsWith(s, p) && StartsWith(s, q) && |p| <= |q|
    ensures StartsWith(q, p)
  {
    assert q[..|p|] == s[..|q|][..|p|];
  }

  /** A slice of s found at offset i occurs in s. */
  lemma {:induction false} ContainsAt(s: string, sub: string, i: nat)
    requires i + |sub| <= |s| && s[i..i + |sub|] == sub
    ensures Contains(s, sub)
    decreases i
  {
    if i == 0 {
      assert s[..|sub|] == sub;
    } else {
      assert s[1..][i - 1..i - 1 + |sub|] == s[i..i + |sub|];
      ContainsAt(s[1..], sub, i - 1);
    }
  }

  /** The trimmed text, lower-cased, occurs in the lower-cased text. */
  lemma LowerTrimInLower(s: string)
    ensures Contains(Lower(s), Lower(Trim(s)))
  {
    TrimStartShape(s);
    var t := TrimStart(s);
    TrimEndShape(t);
    var u := TrimEnd(t);
    var i := |s| - |t|;
    assert u == s[i..i + |u|];
    assert Lower(s)[i..i + |u|] == Lower(u);
    ContainsAt(Lower(s), Lower(u), i);
  }

  /** ASCII lower-casing is idempotent. */
  lemma LowerIdempotent(s: string)
    ensures Lower(Lower(s)) == Lower(s)
  {
  }

  /** `equalsIgnoreCase` is symmetric and reflexive. */
  lemma EqualsIgnoreCaseProperties(a: string, b: string)
    ensures EqualsIgnoreCase(a, a)
    ensures EqualsIgnoreCase(a, b) == EqualsIgnoreCase(b, a)
  {
  }
}
