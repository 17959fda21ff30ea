/** Concatenating the pieces a list of elements maps to, as the repositories' append loops do. */
module Seqs {

  /** f(s[0]) + f(s[1]) + ... + f(s[|s| - 1]). */
  function Flatten<T, U>(f: T -> seq<U>, s: seq<T>): seq<U> {
    if s == [] then [] else Flatten(f, s[..|s| - 1]) + f(s[|s| - 1])
  }

  /** Concatenation regroups freely. */
  lemma AppendAssoc<T>(a: seq<T>, b: seq<T>, c: seq<T>)
    ensures a + b + c == a + (b + c)
  {
  }

  /** One more loop iteration appends the next element's piece. */
  lemma FlattenStep<T, U>(f: T -> seq<U>, s: seq<T>, k: nat)
    requires k < |s|
    ensures Flatten(f, s[..k + 1]) == Flatten(f, s[..k]) + f(s[k])
  {
    assert s[..k + 1][..k] == s[..k];
  }

  lemma {:induction false} FlattenAppend<T, U>(f: T -> seq<U>, a: seq<T>, b: seq<T>)
    ensures Flatten(f, a + b) == Flatten(f, a) + Flatten(f, b)
  {
    if b == [] {
      assert a + b == a;
    } else {
      var front := b[..|b| - 1];
      FlattenAppend(f, a, front);
      assert (a + b)[..|a + b| - 1] == a + front;
      assert (a + b)[|a + b| - 1] == b[|b| - 1];
    }
  }

  /** Each element's piece is part of the whole, so what it holds is listed. */
  lemma FlattenMember<T, U>(f: T -> seq<U>, s: seq<T>, k: nat, x: U)
    requires k < |s| && x in f(s[k])
    ensures x in Flatten(f, s)
  {
    assert s == s[..k + 1] + s[k + 1..];
    FlattenAppend(f, s[..k + 1], s[k + 1..]);
    FlattenStep(f, s, k);
  }

  /** Conversely, everything listed comes from the piece of some element. */
  lemma {:induction false} FlattenOrigin<T, U>(f: T -> seq<U>, s: seq<T>, x: U)
    requires x in Flatten(f, s)
    ensures exists k :: 0 <= k < |s| && x in f(s[k])
  {
    var front := s[..|s| - 1];
    if x in Flatten(f, front) {
      FlattenOrigin(f, front, x);
      var k :| 0 <= k < |front| && x in f(front[k]);
      assert front[k] == s[k];
    } else {
      assert x in f(s[|s| - 1]);
    }
  }
}
