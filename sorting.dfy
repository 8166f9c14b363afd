/** `Array.prototype.sort` with a comparator, as the pages call it on a freshly built local
    array: an in-place insertion sort by adjacent swaps. */
module Sorting {

  /** `le` orders every pair of values and is transitive: what a comparator of the form
      `(a, b) => key(a) - key(b)` provides. */
  ghost predicate TotalPreorder<T(!new)>(le: (T, T) -> bool)
  {
    && (forall x, y :: le(x, y) || le(y, x))
    && (forall x, y, z :: le(x, y) && le(y, z) ==> le(x, z))
  }

  predicate SortedBy<T>(s: seq<T>, le: (T, T) -> bool)
  {
    forall i, j :: 0 <= i < j < |s| ==> le(s[i], s[j])
  }

  /** The prefix `s[..i + 1]` is ordered except around position `j`. */
  predicate SortedExcept<T>(s: seq<T>, i: int, j: int, le: (T, T) -> bool)
    requires 0 <= j <= i < |s|
  {
    forall p, q :: 0 <= p < q <= i && p != j && q != j ==> le(s[p], s[q])
  }

  /** `s[j]` is below everything after it up to position `i`. */
  predicate BelowRest<T>(s: seq<T>, i: int, j: int, le: (T, T) -> bool)
    requires 0 <= j <= i < |s|
  {
    forall q :: j < q <= i ==> le(s[j], s[q])
  }

  /** One swap of the inner loop moves the out-of-place element one step down and keeps both
      invariants. */
  lemma SwapStep<T(!new)>(s: seq<T>, t: seq<T>, i: int, j: int, le: (T, T) -> bool)
    requires TotalPreorder(le)
    requires 0 < j <= i < |s| && !le(s[j - 1], s[j])
    requires SortedExcept(s, i, j, le) && BelowRest(s, i, j, le)
    requires t == s[j - 1 := s[j]][j := s[j - 1]]
    ensures SortedExcept(t, i, j - 1, le) && BelowRest(t, i, j - 1, le)
    ensures multiset(t) == multiset(s)
  {
    assert le(s[j], s[j - 1]);
  }

  method InsertionSort<T(!new)>(a: array<T>, le: (T, T) -> bool)
    requires TotalPreorder(le)
    modifies a
    ensures SortedBy(a[..], le)
    ensures multiset(a[..]) == multiset(old(a[..]))
  {
    var i := 0;
    while i < a.Length
      invariant 0 <= i <= a.Length
      invariant forall p, q :: 0 <= p < q < i ==> le(a[p], a[q])
      invariant multiset(a[..]) == multiset(old(a[..]))
    {
      var j := i;
      while 0 < j && !le(a[j - 1], a[j])
        invariant 0 <= j <= i
        invariant SortedExcept(a[..], i, j, le)
        invariant BelowRest(a[..], i, j, le)
        invariant multiset(a[..]) == multiset(old(a[..]))
      {
        ghost var s := a[..];
        a[j - 1], a[j] := a[j], a[j - 1];
        SwapStep(s, a[..], i, j, le);
        j := j - 1;
      }
      i := i + 1;
    }
  }
}
