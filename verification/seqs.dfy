/** Sequence operations with the meaning of the JavaScript array methods the
    task store and the dashboard are built from (`map`, `filter`, `find`),
    each specified by what it computes, plus the generic facts about them
    that the store and the dashboard lemmas rely on. */
module Seqs {

  /** `T | undefined`: the result of a lookup that may find nothing. */
  datatype Option<T> = None | Some(value: T) {

    /** The value, or `default` when there is none. */
    function GetOr(default: T): T {
      match this
      case Some(v) => v
      case None => default
    }
  }

  /** `a` is obtained from `b` by deleting elements: what is kept keeps the
      relative order it has in `b`. */
  ghost predicate IsSubseq<T>(a: seq<T>, b: seq<T>)
    decreases |b|
  {
    if a == [] then true
    else if b == [] then false
    else (a[0] == b[0] && IsSubseq(a[1..], b[1..])) || IsSubseq(a, b[1..])
  }

  /** `s.map(f)`: same length, `f` applied at every position. */
  function Map<T, U>(f: T -> U, s: seq<T>): (r: seq<U>)
    ensures |r| == |s|
    ensures forall i :: 0 <= i < |s| ==> r[i] == f(s[i])
  {
    if s == [] then [] else [f(s[0])] + Map(f, s[1..])
  }

  /** `s.filter(f)`: the elements of `s` that satisfy `f`, every occurrence of
      them, in their original relative order. */
  function Filter<T>(f: T -> bool, s: seq<T>): (r: seq<T>)
    ensures |r| <= |s|
    ensures forall x :: x in r ==> x in s && f(x)
    ensures forall x :: x in s ==> multiset(r)[x] == if f(x) then multiset(s)[x] else 0
    ensures IsSubseq(r, s)
  {
    if s == [] then []
    else
      assert s == [s[0]] + s[1..];
      if f(s[0]) then [s[0]] + Filter(f, s[1..]) else Filter(f, s[1..])
  }

  /** `s.find(f)`: the first element of `s` that satisfies `f`, or nothing
      when no element does. */
  function Find<T>(f: T -> bool, s: seq<T>): (r: Option<T>)
    ensures r.None? <==> forall i :: 0 <= i < |s| ==> !f(s[i])
    ensures r.Some? ==> r.value in s && f(r.value)
    ensures forall i :: 0 <= i < |s| && f(s[i]) && (forall j :: 0 <= j < i ==> !f(s[j])) ==> r == Some(s[i])
  {
    if s == [] then None
    else if f(s[0]) then Some(s[0])
    else
      var r := Find(f, s[1..]);
      assert forall i :: 1 <= i < |s| ==> s[i] == s[1..][i - 1];
      r
  }

  /** Filtering with two predicates that agree everywhere gives the same result. */
  lemma {:induction false} FilterExt<T>(p: T -> bool, q: T -> bool, s: seq<T>)
    requires forall x :: p(x) == q(x)
    ensures Filter(p, s) == Filter(q, s)
  {
    if s != [] {
      FilterExt(p, q, s[1..]);
    }
  }

  /** Filtering drops nothing exactly when every element passes. */
  lemma {:induction false} FilterKeepsAll<T>(f: T -> bool, s: seq<T>)
    ensures Filter(f, s) == s <==> forall x :: x in s ==> f(x)
    ensures |Filter(f, s)| == |s| <==> forall x :: x in s ==> f(x)
  {
    if s != [] {
      FilterKeepsAll(f, s[1..]);
      assert s == [s[0]] + s[1..];
    }
  }

  /** Two successive filters are one filter by the conjunction. */
  lemma {:induction false} FilterFilter<T>(p: T -> bool, q: T -> bool, pq: T -> bool, s: seq<T>)
    requires forall x :: pq(x) == (p(x) && q(x))
    ensures Filter(q, Filter(p, s)) == Filter(pq, s)
  {
    if s != [] {
      FilterFilter(p, q, pq, s[1..]);
    }
  }

  /** Filters by two predicates that exclude each other together keep as many
      elements as the filter by their disjunction. */
  lemma {:induction false} FilterDisjoint<T>(p: T -> bool, q: T -> bool, pq: T -> bool, s: seq<T>)
    requires forall x :: !(p(x) && q(x))
    requires forall x :: pq(x) == (p(x) || q(x))
    ensures |Filter(p, s)| + |Filter(q, s)| == |Filter(pq, s)|
  {
    if s != [] {
      FilterDisjoint(p, q, pq, s[1..]);
    }
  }

  /** Looking for `q` after a filter that keeps everything satisfying `q`
      finds the same element as looking in the unfiltered sequence. */
  lemma {:induction false} FindAfterFilter<T>(q: T -> bool, p: T -> bool, s: seq<T>)
    requires forall x :: q(x) ==> p(x)
    ensures Find(q, Filter(p, s)) == Find(q, s)
  {
    if s != [] {
      FindAfterFilter(q, p, s[1..]);
    }
  }

  /** Looking for `q` after a map that does not change `q` finds the image of
      what was found before the map. */
  lemma {:induction false} FindAfterMap<T>(q: T -> bool, g: T -> T, s: seq<T>)
    requires forall x :: q(g(x)) == q(x)
    ensures Find(q, Map(g, s)) == match Find(q, s) case None => None case Some(x) => Some(g(x))
  {
    if s != [] {
      FindAfterMap(q, g, s[1..]);
      assert Map(g, s) == [g(s[0])] + Map(g, s[1..]);
    }
  }

  /** Every element of a subsequence is an element of the whole. */
  lemma {:induction false} SubseqMembers<T>(a: seq<T>, b: seq<T>)
    requires IsSubseq(a, b)
    ensures forall x :: x in a ==> x in b
    decreases |b|
  {
    if a != [] {
      if a[0] == b[0] && IsSubseq(a[1..], b[1..]) {
        SubseqMembers(a[1..], b[1..]);
        assert forall x :: x in a ==> x == a[0] || x in a[1..];
      } else {
        SubseqMembers(a, b[1..]);
      }
    }
  }
}
