/** String search as the gate uses it: JavaScript's `String.prototype.indexOf`
    and the `indexOf(..) > -1` containment test built on it. */
module Text {

  /** `t` occurs in `s` starting at position `k`. */
  predicate OccursAt(s: string, t: string, k: nat) {
    k + |t| <= |s| && s[k..k + |t|] == t
  }

  /** The first position at or after `from` where `t` occurs in `s`, or -1. */
  function IndexFrom(s: string, t: string, from: nat): (r: int)
    requires from <= |s|
    decreases |s| - from
    ensures -1 <= r <= |s|
  {
    if from + |t| > |s| then -1
    else if s[from..from + |t|] == t then from
    else IndexFrom(s, t, from + 1)
  }

  /** `s.indexOf(t)`: the first position where `t` occurs in `s`, or -1. */
  function IndexOf(s: string, t: string): (r: int)
    ensures -1 <= r <= |s|
  {
    IndexFrom(s, t, 0)
  }

  /** `s.indexOf(t) > -1`. */
  predicate Contains(s: string, t: string) {
    IndexOf(s, t) > -1
  }

  /** The search from `from` finds the first occurrence at or after `from`, and
      returns -1 only when there is none. */
  lemma {:induction false} IndexFromFindsFirst(s: string, t: string, from: nat)
    requires from <= |s|
    decreases |s| - from
    ensures var r := IndexFrom(s, t, from);
            && (r == -1 || (from <= r && OccursAt(s, t, r)))
            && (r == -1 ==> forall k :: from <= k <= |s| ==> !OccursAt(s, t, k))
            && (r != -1 ==> forall k :: from <= k < r ==> !OccursAt(s, t, k))
  {
    if from + |t| <= |s| && s[from..from + |t|] != t {
      IndexFromFindsFirst(s, t, from + 1);
    }
  }

  /** `indexOf` returns the first occurrence, and -1 exactly when there is none. */
  lemma IndexOfFindsFirst(s: string, t: string)
    ensures var r := IndexOf(s, t);
            && -1 <= r <= |s|
            && (r == -1 <==> forall k :: 0 <= k <= |s| ==> !OccursAt(s, t, k))
            && (r != -1 ==> OccursAt(s, t, r) && forall k :: 0 <= k < r ==> !OccursAt(s, t, k))
  {
    IndexFromFindsFirst(s, t, 0);
  }

  /** An occurrence anywhere makes `Contains` true. */
  lemma OccurrenceContains(s: string, t: string, k: nat)
    requires OccursAt(s, t, k)
    ensures Contains(s, t)
  {
    IndexOfFindsFirst(s, t);
  }

  /** A string contains every infix it was built around. */
  lemma {:induction false} ContainsInfix(a: string, t: string, b: string)
    ensures Contains(a + t + b, t)
  {
    var s := a + t + b;
    assert s[|a|..|a| + |t|] == t;
    OccurrenceContains(s, t, |a|);
  }

  /** Appending text keeps every occurrence. */
  lemma {:induction false} ContainsExtend(a: string, t: string, b: string)
    requires Contains(a, t)
    ensures Contains(a + b, t)
  {
    IndexOfFindsFirst(a, t);
    var k := IndexOf(a, t);
    assert (a + b)[k..k + |t|] == a[k..k + |t|];
    OccurrenceContains(a + b, t, k);
  }

  /** A string cannot contain `t` when some character of `t` never appears in it. */
  lemma {:induction false} MissingCharNotContained(s: string, t: string, c: char)
    requires c in t && c !in s
    ensures !Contains(s, t)
  {
    IndexOfFindsFirst(s, t);
    forall k | 0 <= k <= |s| ensures !OccursAt(s, t, k) {
    }
  }

  /** A string containing `t + u` contains `t`; e.g. a logout URL is an auth URL. */
  lemma {:induction false} ContainsPrefixOfNeedle(s: string, t: string, u: string)
    requires Contains(s, t + u)
    ensures Contains(s, t)
  {
    IndexOfFindsFirst(s, t + u);
    var k := IndexOf(s, t + u);
    assert s[k..k + |t|] == (t + u)[..|t|] == t;
    OccurrenceContains(s, t, k);
  }

  /** Regrouping a five-part concatenation. */
  lemma Regroup(x: string, y: string, a: string, b: string, z: string)
    ensures x + y + a + b + z == x + (y + (a + b) + z)
  {
  }

  /** `toUpperCase` on one character; only the ASCII letters change. */
  function UpperChar(c: char): char {
    if 'a' <= c <= 'z' then (c as int - 32) as char else c
  }

  /** `s.toUpperCase()` for ASCII text: no lower-case letter is left, each one
      becomes the capital at the same place in the alphabet, and every other
      character is kept. */
  function ToUpper(s: string): (r: string)
    ensures |r| == |s|
    ensures forall i :: 0 <= i < |r| ==> !('a' <= r[i] <= 'z')
    ensures forall i :: 0 <= i < |s| && !('a' <= s[i] <= 'z') ==> r[i] == s[i]
    ensures forall i :: 0 <= i < |s| && 'a' <= s[i] <= 'z' ==>
              'A' <= r[i] <= 'Z' && r[i] as int - 'A' as int == s[i] as int - 'a' as int
  {
    seq(|s|, i requires 0 <= i < |s| => UpperChar(s[i]))
  }

  /** Upper-casing twice is upper-casing once. */
  lemma ToUpperIdempotent(s: string)
    ensures ToUpper(ToUpper(s)) == ToUpper(s)
  {
    var r := ToUpper(s);
    assert forall i :: 0 <= i < |r| ==> ToUpper(r)[i] == r[i];
  }
}
