/** The array operations the pages use on their lists: `filter`, `map` over the entries that
    satisfy a test, and the subsequence relation that `filter` establishes. */
module Seqs {

  /** `s.filter(p)`: the elements of `s` that satisfy `p`, in their original order. */
  function Filter<T>(s: seq<T>, p: T -> bool): (r: seq<T>)
    ensures |r| <= |s|
    ensures forall x :: x in r ==> x in s && p(x)
    ensures forall i :: 0 <= i < |s| && p(s[i]) ==> s[i] in r
  {
    if s == [] then []
    else if p(s[0]) then [s[0]] + Filter(s[1..], p)
    else Filter(s[1..], p)
  }

  /** `r` is `s` with some elements left out and the rest in their original order. */
  predicate IsSubsequence<T(==)>(r: seq<T>, s: seq<T>)
  {
    if s == [] then r == []
    else (r != [] && r[0] == s[0] && IsSubsequence(r[1..], s[1..])) || IsSubsequence(r, s[1..])
  }

  lemma {:induction false} EmptyIsSubsequence<T>(s: seq<T>)
    ensures IsSubsequence([], s)
  {
    if s != [] {
      EmptyIsSubsequence(s[1..]);
    }
  }

  lemma {:induction false} SubsequenceTransitive<T>(r: seq<T>, s: seq<T>, t: seq<T>)
    requires IsSubsequence(r, s) && IsSubsequence(s, t)
    ensures IsSubsequence(r, t)
    decreases |t|
  {
    if t == [] {
    } else if s == [] {
      EmptyIsSubsequence(t);
    } else if s[0] == t[0] && IsSubsequence(s[1..], t[1..]) {
      if r != [] && r[0] == s[0] && IsSubsequence(r[1..], s[1..]) {
        SubsequenceTransitive(r[1..], s[1..], t[1..]);
      } else {
        SubsequenceTransitive(r, s[1..], t[1..]);
      }
    } else {
      SubsequenceTransitive(r, s, t[1..]);
    }
  }

  lemma {:induction false} FilterIsSubsequence<T>(s: seq<T>, p: T -> bool)
    ensures IsSubsequence(Filter(s, p), s)
  {
    if s != [] {
      FilterIsSubsequence(s[1..], p);
      if p(s[0]) {
        assert Filter(s, p)[1..] == Filter(s[1..], p);
      }
    }
  }

  /** A filter whose test every element passes returns the list unchanged. */
  lemma {:induction false} FilterKeepsAll<T>(s: seq<T>, p: T -> bool)
    requires forall i :: 0 <= i < |s| ==> p(s[i])
    ensures Filter(s, p) == s
  {
    if s != [] {
      FilterKeepsAll(s[1..], p);
    }
  }

  /** Filtering twice with the same test changes nothing the second time. */
  lemma {:induction false} FilterIdempotent<T>(s: seq<T>, p: T -> bool)
    ensures Filter(Filter(s, p), p) == Filter(s, p)
  {
    var r := Filter(s, p);
    forall i | 0 <= i < |r| ensures p(r[i]) {
      assert r[i] in r;
    }
    FilterKeepsAll(r, p);
  }

  /** `s.map(x => sel(x) ? f(x) : x)`: `f` applied to exactly the entries that `sel` picks. */
  function MapWhere<T>(s: seq<T>, sel: T -> bool, f: T -> T): (r: seq<T>)
    ensures |r| == |s|
    ensures forall i :: 0 <= i < |s| && sel(s[i]) ==> r[i] == f(s[i])
    ensures forall i :: 0 <= i < |s| && !sel(s[i]) ==> r[i] == s[i]
  {
    if s == [] then []
    else [if sel(s[0]) then f(s[0]) else s[0]] + MapWhere(s[1..], sel, f)
  }

  /** Two tests that agree on every element select the same elements. */
  lemma {:induction false} FilterCongruent<T>(s: seq<T>, p: T -> bool, q: T -> bool)
    requires forall i :: 0 <= i < |s| ==> p(s[i]) == q(s[i])
    ensures Filter(s, p) == Filter(s, q)
  {
    if s != [] {
      FilterCongruent(s[1..], p, q);
    }
  }

  /** Chained `filter` calls select what one filter with both tests selects. */
  lemma {:induction false} FilterFilter<T>(s: seq<T>, p: T -> bool, q: T -> bool)
    ensures Filter(Filter(s, p), q) == Filter(s, (x: T) => p(x) && q(x))
  {
    if s != [] {
      FilterFilter(s[1..], p, q);
      if p(s[0]) {
        assert Filter(s, p) == [s[0]] + Filter(s[1..], p);
        assert Filter(s, p)[1..] == Filter(s[1..], p);
      }
    }
  }

  predicate NoDuplicates<T(==)>(s: seq<T>)
  {
    forall i, j :: 0 <= i < j < |s| ==> s[i] != s[j]
  }

  /** `[...new Set(s)]`: each distinct element once, at the position of its first occurrence. */
  function Distinct<T(==, !new)>(s: seq<T>): (r: seq<T>)
    ensures NoDuplicates(r)
    ensures forall x :: x in r <==> x in s
  {
    if s == [] then []
    else
      var r := Distinct(s[..|s| - 1]);
      assert forall x :: x in s <==> x in s[..|s| - 1] || x == s[|s| - 1];
      if s[|s| - 1] in r then r else r + [s[|s| - 1]]
  }
}
