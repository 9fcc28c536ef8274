/** The in-place sort both list builders use: descending by an integer key.
    Swift's `sort(by:)` promises a permutation ordered by the comparator and
    nothing about the order of ties; so does this one. */
module Sorting {

  /** Keys never increase from left to right. */
  predicate NonIncreasing<T>(s: seq<T>, key: T -> int)
  {
    forall p, q :: 0 <= p < q < |s| ==> key(s[p]) >= key(s[q])
  }

  method Swap<T>(a: array<T>, i: int, j: int)
    requires 0 <= i < a.Length && 0 <= j < a.Length
    modifies a
    ensures a[..] == old(a[..])[i := old(a[j])][j := old(a[i])]
    ensures multiset(a[..]) == multiset(old(a[..]))
  {
    a[i], a[j] := a[j], a[i];
  }

  /** Insertion sort: each new element is swapped leftwards past every
      element with a smaller key. */
  method SortDescending<T>(a: array<T>, key: T -> int)
    modifies a
    ensures NonIncreasing(a[..], key)
    ensures multiset(a[..]) == multiset(old(a[..]))
  {
    var i := 0;
    while i < a.Length
      invariant 0 <= i <= a.Length
      invariant NonIncreasing(a[..i], key)
      invariant multiset(a[..]) == multiset(old(a[..]))
    {
      SiftLeft(a, i, key);
      i := i + 1;
    }
    assert a[..a.Length] == a[..];
  }

  /** One step of the insertion sort: `a[i]` moves left into place within
      the already ordered prefix `a[..i]`. */
  method SiftLeft<T>(a: array<T>, i: int, key: T -> int)
    requires 0 <= i < a.Length
    requires NonIncreasing(a[..i], key)
    modifies a
    ensures NonIncreasing(a[..i + 1], key)
    ensures multiset(a[..]) == multiset(old(a[..]))
  {
    var j := i;
    while j > 0 && key(a[j - 1]) < key(a[j])
      invariant 0 <= j <= i
      invariant forall p, q :: 0 <= p < q <= i && p != j && q != j ==> key(a[p]) >= key(a[q])
      invariant forall q :: j < q <= i ==> key(a[j]) > key(a[q])
      invariant multiset(a[..]) == multiset(old(a[..]))
    {
      Swap(a, j - 1, j);
      j := j - 1;
    }
  }
}
