/** Keeping the elements of a list that satisfy a predicate, in order. */
module Filters {
  function Keep<T>(s: seq<T>, p: T -> bool): seq<T> {
    if s == [] then [] else (if p(s[0]) then [s[0]] else []) + Keep(s[1..], p)
  }

  /** Order: filtering distributes over every cut of the list. */
  lemma {:induction false} KeepAppends<T>(a: seq<T>, b: seq<T>, p: T -> bool)
    ensures Keep(a + b, p) == Keep(a, p) + Keep(b, p)
  {
    if a == [] {
      assert a + b == b;
    } else {
      var rest := a[1..];
      assert (a + b)[1..] == rest + b && (a + b)[0] == a[0];
      KeepAppends(rest, b, p);
      assert Keep(a + b, p) == (if p(a[0]) then [a[0]] else []) + Keep(rest + b, p);
      assert Keep(a, p) == (if p(a[0]) then [a[0]] else []) + Keep(rest, p);
      hide Keep;
    }
  }

  lemma KeepOne<T>(s: seq<T>, i: nat, p: T -> bool)
    requires i < |s|
    ensures Keep(s[..i + 1], p) == Keep(s[..i], p) + (if p(s[i]) then [s[i]] else [])
  {
    assert s[..i + 1] == s[..i] + [s[i]];
    KeepAppends(s[..i], [s[i]], p);
  }

  /** Contents: what satisfies the predicate stays as often as it was, the rest is gone. */
  lemma {:induction false} KeepCounts<T>(s: seq<T>, p: T -> bool, x: T)
    ensures multiset(Keep(s, p))[x] == if p(x) then multiset(s)[x] else 0
  {
    if s != [] {
      KeepCounts(s[1..], p, x);
      assert s == [s[0]] + s[1..];
    }
  }

  lemma KeepMembers<T>(s: seq<T>, p: T -> bool, x: T)
    ensures x in Keep(s, p) <==> p(x) && x in s
  {
    KeepCounts(s, p, x);
    assert x in Keep(s, p) <==> x in multiset(Keep(s, p));
    assert x in s <==> x in multiset(s);
  }

  lemma {:induction false} KeepAll<T>(s: seq<T>, p: T -> bool)
    requires forall i :: 0 <= i < |s| ==> p(s[i])
    ensures Keep(s, p) == s
  {
    if s != [] { KeepAll(s[1..], p); }
  }
}
