module Sequences {

  /** The sequence without its x-th element. */
  function Without<T>(s: seq<T>, x: nat): seq<T>
    requires x < |s|
  {
    s[..x] + s[x + 1..]
  }

  /** The element at position i, or `none` outside. */
  function At<T>(s: seq<T>, i: int, none: T): T {
    if 0 <= i < |s| then s[i] else none
  }

  /** How often x occurs among the first n elements. */
  ghost function Times<T>(s: seq<T>, x: T, n: nat): nat
    requires n <= |s|
  {
    if n == 0 then 0 else Times(s, x, n - 1) + if s[n - 1] == x then 1 else 0
  }

  ghost predicate Differ<T>(s: seq<T>, i: nat, j: nat)
    requires i < |s| && j < |s|
  {
    s[i] != s[j]
  }

  /** No element occurs twice. */
  ghost predicate Distinct<T>(s: seq<T>) {
    forall i, j :: 0 <= i < j < |s| ==> Differ(s, i, j)
  }

  lemma {:induction false} DistinctAt<T>(s: seq<T>, i: nat, j: nat)
    requires Distinct(s) && i < |s| && j < |s| && i != j
    ensures s[i] != s[j]
  {
    assert Differ(s, if i < j then i else j, if i < j then j else i);
  }

  lemma {:induction false} DistinctWithout<T>(s: seq<T>, x: nat)
    requires Distinct(s) && x < |s|
    ensures Distinct(Without(s, x)) && forall e :: e in Without(s, x) ==> e in s
  {
    forall i, j | 0 <= i < j < |Without(s, x)|
      ensures Differ(Without(s, x), i, j)
    {
      DistinctAt(s, if i < x then i else i + 1, if j < x then j else j + 1);
    }
  }

  lemma {:induction false} TimesSum<T>(a: seq<T>, b: seq<T>, x: T)
    ensures multiset(a + b)[x] == multiset(a)[x] + multiset(b)[x]
  {
  }

  /** Putting t in front and taking the element at i away changes how often x occurs accordingly. */
  lemma {:induction false} TimesExchanged<T>(t: T, s: seq<T>, i: nat, x: T)
    requires i <= |s|
    ensures multiset(([t] + s)[..i] + s[i..])[x] + multiset([([t] + s)[i]])[x] == multiset(s)[x] + multiset([t])[x]
  {
    var o := [t] + s;
    assert o[i + 1..] == s[i..];
    assert o == (o[..i] + [o[i]]) + s[i..];
    TimesSum([t], s, x);
    TimesSum(o[..i] + [o[i]], s[i..], x);
    TimesSum(o[..i], [o[i]], x);
    TimesSum(o[..i], s[i..], x);
  }
}
