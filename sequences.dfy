/**
 * Sequence helpers shared by the rule model and the statement bookkeeping:
 * duplicate-free sequences and the insertion-ordered set of java.util.LinkedHashSet.
 */
module Sequences {

  predicate NoDuplicates<T(==)>(s: seq<T>) {
    forall i, j :: 0 <= i < j < |s| ==> s[i] != s[j]
  }

  /** LinkedHashSet.add: appends x unless it is already present. */
  function AddDistinct<T(==)>(s: seq<T>, x: T): (r: seq<T>)
    ensures NoDuplicates(s) ==> NoDuplicates(r)
    ensures x in r && (forall y <- s :: y in r) && (forall y <- r :: y in s || y == x)
    ensures s <= r
  {
    if x in s then s else s + [x]
  }

  /** Adds the elements of xs, in order, to the insertion-ordered set s. */
  function AddAllDistinct<T(==)>(s: seq<T>, xs: seq<T>): (r: seq<T>)
    ensures NoDuplicates(s) ==> NoDuplicates(r)
    ensures (forall y <- s :: y in r) && (forall y <- xs :: y in r)
    ensures forall y <- r :: y in s || y in xs
    ensures s <= r
  {
    if xs == [] then s
    else
      var n := |xs| - 1;
      assert xs == xs[..n] + [xs[n]];
      AddDistinct(AddAllDistinct(s, xs[..n]), xs[n])
  }

  lemma {:induction false} PrefixTransitive<T>(a: seq<T>, b: seq<T>, c: seq<T>)
    requires a <= b && b <= c
    ensures a <= c
  {
    assert c[..|a|] == b[..|a|];
  }

  /** Adding one more element of xs to the set built from its prefix. */
  lemma {:induction false} AddAllDistinctStep<T>(s: seq<T>, xs: seq<T>, i: nat)
    requires i < |xs|
    ensures AddAllDistinct(s, xs[..i + 1]) == AddDistinct(AddAllDistinct(s, xs[..i]), xs[i])
  {
    assert xs[..i + 1][..i] == xs[..i];
  }

  /**
   * First-occurrence order: adding a prefix of xs gives a prefix of adding all of xs,
   * so an element that first occurs earlier in xs is listed earlier.
   */
  lemma {:induction false} AddAllDistinctPrefix<T>(s: seq<T>, xs: seq<T>, k: nat)
    requires k <= |xs|
    ensures AddAllDistinct(s, xs[..k]) <= AddAllDistinct(s, xs)
  {
    if k == |xs| {
      assert xs[..k] == xs;
    } else {
      var n := |xs| - 1;
      assert xs[..n][..k] == xs[..k];
      AddAllDistinctPrefix(s, xs[..n], k);
    }
  }

  /** The number of occurrences of x in s. */
  function Count<T(==)>(s: seq<T>, x: T): nat {
    if s == [] then 0
    else Count(s[..|s| - 1], x) + (if s[|s| - 1] == x then 1 else 0)
  }

  /** Counting over one more element of s. */
  lemma {:induction false} CountStep<T>(s: seq<T>, i: nat, x: T)
    requires i < |s|
    ensures Count(s[..i + 1], x) == Count(s[..i], x) + (if s[i] == x then 1 else 0)
  {
    assert s[..i + 1][..i] == s[..i];
  }

  /** An element of s occurs in it at least once. */
  lemma {:induction false} CountPositive<T>(s: seq<T>, x: T)
    requires x in s
    ensures Count(s, x) > 0
  {
    var n := |s| - 1;
    if s[n] != x {
      assert x in s[..n] by {
        var i :| 0 <= i < |s| && s[i] == x;
        assert s[..n][i] == x;
      }
      CountPositive(s[..n], x);
    }
  }

  /** n copies of x. */
  function Repeat<T>(x: T, n: nat): (r: seq<T>)
    ensures |r| == n
    ensures forall i :: 0 <= i < n ==> r[i] == x
  {
    if n == 0 then [] else Repeat(x, n - 1) + [x]
  }
}
