/** Sequence helpers: order-preserving filtering (a `where` on an ordered table),
    and the minimum used by `last(n)`. */
module Seqs {

  function Min(a: int, b: int): int { if a <= b then a else b }

  /** Keeps the elements satisfying `p`, in their original order. */
  function Filter<T>(s: seq<T>, p: T -> bool): (r: seq<T>)
    ensures |r| <= |s|
    ensures forall i :: 0 <= i < |r| ==> r[i] in s && p(r[i])
    ensures forall i :: 0 <= i < |s| && p(s[i]) ==> s[i] in r
    ensures forall x {:trigger multiset(r)[x]} :: x in s ==> multiset(r)[x] == (if p(x) then multiset(s)[x] else 0)
    decreases |s|
  {
    if s == [] then []
    else
      var r := Filter(s[..|s| - 1], p) + (if p(s[|s| - 1]) then [s[|s| - 1]] else []);
      assert s == s[..|s| - 1] + [s[|s| - 1]];
      r
  }

  /** Filtering distributes over concatenation, so filtering is order preserving. */
  lemma {:induction false} FilterConcat<T>(a: seq<T>, b: seq<T>, p: T -> bool)
    ensures Filter(a + b, p) == Filter(a, p) + Filter(b, p)
    decreases |b|
  {
    if b == [] {
      assert a + b == a;
    } else {
      var last := b[|b| - 1];
      assert (a + b)[..|a + b| - 1] == a + b[..|b| - 1];
      FilterConcat(a, b[..|b| - 1], p);
    }
  }

  /** Filtering a sequence every element of which passes leaves it unchanged. */
  lemma {:induction false} FilterAllPass<T>(s: seq<T>, p: T -> bool)
    requires forall i :: 0 <= i < |s| ==> p(s[i])
    ensures Filter(s, p) == s
    decreases |s|
  {
    if s != [] {
      FilterAllPass(s[..|s| - 1], p);
    }
  }
}
