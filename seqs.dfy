/** The array idioms the dashboard builds its lists from: `filter`, a stable
    `sort` by a numeric comparator key, and de-duplication through a `Set`
    in insertion order, with the order relations used to state them. */
module Seqs {

  import opened Wrappers

  /** `a` can be obtained from `b` by deleting elements: the elements of `a`
      occur in `b` in the same relative order. */
  ghost predicate IsSubsequence<T>(a: seq<T>, b: seq<T>)
    decreases |b|
  {
    if a == [] then true
    else if b == [] then false
    else (a[0] == b[0] && IsSubsequence(a[1..], b[1..])) || IsSubsequence(a, b[1..])
  }

  lemma {:induction false} SubsequenceTransitive<T>(a: seq<T>, b: seq<T>, c: seq<T>)
    requires IsSubsequence(a, b) && IsSubsequence(b, c)
    ensures IsSubsequence(a, c)
    decreases |c|
  {
    if a != [] {
      if b[0] == c[0] && IsSubsequence(b[1..], c[1..]) {
        if a[0] == b[0] && IsSubsequence(a[1..], b[1..]) {
          SubsequenceTransitive(a[1..], b[1..], c[1..]);
        } else {
          SubsequenceTransitive(a, b[1..], c[1..]);
        }
      } else {
        SubsequenceTransitive(a, b, c[1..]);
      }
    }
  }

  lemma {:induction false} SubsequenceReflexive<T>(a: seq<T>)
    ensures IsSubsequence(a, a)
  {
    if a != [] {
      SubsequenceReflexive(a[1..]);
    }
  }

  /** `s.filter(p)`: exactly the elements of `s` satisfying `p`, each as
      often as in `s`, in their original order. */
  function Filter<T(!new)>(s: seq<T>, p: T -> bool): (r: seq<T>)
    ensures |r| <= |s|
    ensures forall x :: x in r <==> x in s && p(x)
    ensures forall x :: multiset(r)[x] == if p(x) then multiset(s)[x] else 0
    ensures IsSubsequence(r, s)
    ensures multiset(r) <= multiset(s)
  {
    if s == [] then []
    else
      var rest := Filter(s[1..], p);
      assert s == [s[0]] + s[1..];
      FilterStep(s[0], s[1..], rest, p);
      SubsequenceStep(s[0], s[1..], rest, p(s[0]));
      if p(s[0]) then [s[0]] + rest else rest
  }

  /** A subsequence of the tail, with or without the head in front, is a
      subsequence of the whole. */
  lemma SubsequenceStep<T>(h: T, tail: seq<T>, rest: seq<T>, keep: bool)
    requires IsSubsequence(rest, tail)
    ensures IsSubsequence(if keep then [h] + rest else rest, [h] + tail)
  {
    var b := [h] + tail;
    assert b[1..] == tail;
    if keep {
      assert ([h] + rest)[1..] == rest;
    }
  }

  /** Filtering one more leading element keeps the filter's counts, and
      with them its membership and its bound by the input. */
  lemma FilterStep<T>(h: T, tail: seq<T>, rest: seq<T>, p: T -> bool)
    requires forall x :: multiset(rest)[x] == if p(x) then multiset(tail)[x] else 0
    ensures var r := if p(h) then [h] + rest else rest;
            && (forall x :: multiset(r)[x] == if p(x) then multiset([h] + tail)[x] else 0)
            && (forall x :: x in r <==> x in [h] + tail && p(x))
            && multiset(r) <= multiset([h] + tail)
  {
    var r := if p(h) then [h] + rest else rest;
    assert multiset([h] + tail) == multiset{h} + multiset(tail);
    assert multiset([h] + rest) == multiset{h} + multiset(rest);
    forall x ensures x in r <==> x in [h] + tail && p(x) {
      assert x in r <==> x in multiset(r);
      assert x in [h] + tail <==> x in multiset([h] + tail);
    }
  }

  /** `s.findIndex(p)`, with `None` for -1: the first position whose
      element satisfies `p`. */
  function FindIndex<T>(s: seq<T>, p: T -> bool): (r: Option<nat>)
    ensures r.None? <==> forall k :: 0 <= k < |s| ==> !p(s[k])
    ensures r.Some? ==> r.value < |s| && p(s[r.value])
    ensures r.Some? ==> forall j :: 0 <= j < r.value ==> !p(s[j])
  {
    if s == [] then None
    else if p(s[0]) then Some(0)
    else
      match FindIndex(s[1..], p)
      case None => assert forall k :: 1 <= k < |s| ==> s[k] == s[1..][k - 1]; None
      case Some(k) => Some(k + 1)
  }

  /** `s.find(p)`, with `None` for `undefined`: the first element satisfying
      `p`. */
  function Find<T>(s: seq<T>, p: T -> bool): (r: Option<T>)
    ensures r.None? <==> forall k :: 0 <= k < |s| ==> !p(s[k])
    ensures r.Some? ==> r.value in s && p(r.value)
    ensures r.Some? ==> exists k :: 0 <= k < |s| && s[k] == r.value && forall j :: 0 <= j < k ==> !p(s[j])
  {
    match FindIndex(s, p)
    case None => None
    case Some(k) => Some(s[k])
  }

  /** A filter that keeps every element is the identity. */
  lemma {:induction false} FilterKeepsAll<T(!new)>(s: seq<T>, p: T -> bool)
    requires forall x :: x in s ==> p(x)
    ensures Filter(s, p) == s
  {
    if s != [] {
      FilterKeepsAll(s[1..], p);
    }
  }

  /** A filter that keeps no element yields the empty sequence. */
  lemma {:induction false} FilterKeepsNone<T(!new)>(s: seq<T>, p: T -> bool)
    requires forall x :: x in s ==> !p(x)
    ensures Filter(s, p) == []
  {
    if s != [] {
      FilterKeepsNone(s[1..], p);
    }
  }

  /** Every pair of positions is ordered by `key`. */
  ghost predicate SortedBy<T>(s: seq<T>, key: T -> int) {
    forall i, j :: 0 <= i < j < |s| ==> key(s[i]) <= key(s[j])
  }

  /** Puts `x` into a sorted sequence ahead of every element whose key is not
      smaller than its own. */
  function Insert<T>(x: T, s: seq<T>, key: T -> int): (r: seq<T>)
    requires SortedBy(s, key)
    ensures |r| == |s| + 1
    ensures multiset(r) == multiset(s) + multiset{x}
    ensures SortedBy(r, key)
  {
    if s == [] || key(x) <= key(s[0]) then [x] + s
    else
      var rest := Insert(x, s[1..], key);
      assert s == [s[0]] + s[1..];
      InsertBehindHead(s, x, rest, key);
      [s[0]] + rest
  }

  /** The head of a sorted sequence may stay in front of the insertion into
      its tail, when `x` sorts after it. */
  lemma InsertBehindHead<T>(s: seq<T>, x: T, rest: seq<T>, key: T -> int)
    requires s != [] && SortedBy(s, key) && key(s[0]) < key(x)
    requires multiset(rest) == multiset(s[1..]) + multiset{x} && SortedBy(rest, key)
    ensures SortedBy([s[0]] + rest, key)
  {
    forall y | y in rest ensures key(s[0]) <= key(y) {
      assert y in multiset(rest);
      if y != x {
        assert y in multiset(s[1..]);
        var k :| 0 <= k < |s[1..]| && s[1..][k] == y;
        assert s[k + 1] == y;
      }
    }
    var r := [s[0]] + rest;
    forall i, j | 0 <= i < j < |r| ensures key(r[i]) <= key(r[j]) {
      if i == 0 {
        assert r[j] == rest[j - 1] && rest[j - 1] in rest;
      } else {
        assert r[i] == rest[i - 1] && r[j] == rest[j - 1];
      }
    }
  }

  /** `[...s].sort((a, b) => key(a) - key(b))`: a permutation of `s` in
      non-decreasing key order. */
  function SortByKey<T>(s: seq<T>, key: T -> int): (r: seq<T>)
    ensures |r| == |s|
    ensures multiset(r) == multiset(s)
    ensures SortedBy(r, key)
  {
    if s == [] then []
    else
      assert s == [s[0]] + s[1..];
      Insert(s[0], SortByKey(s[1..], key), key)
  }

  /** A prefix of a sorted sequence is sorted. */
  lemma SortedPrefix<T>(s: seq<T>, key: T -> int, n: nat)
    requires SortedBy(s, key) && n <= |s|
    ensures SortedBy(s[..n], key)
  {
  }

  /** A prefix holds each element at most as often as the whole. */
  lemma PrefixMultiset<T>(s: seq<T>, n: nat)
    requires n <= |s|
    ensures multiset(s[..n]) <= multiset(s)
  {
    assert s == s[..n] + s[n..];
  }

  /** Sequences with the same multiset have the same elements. */
  lemma SameMultisetSameElements<T>(a: seq<T>, b: seq<T>)
    requires multiset(a) == multiset(b)
    ensures forall x :: x in a <==> x in b
  {
    forall x ensures x in a <==> x in b {
      assert x in a <==> x in multiset(a);
      assert x in b <==> x in multiset(b);
    }
  }

  ghost predicate NoDuplicates<T>(s: seq<T>) {
    forall i, j :: 0 <= i < j < |s| ==> s[i] != s[j]
  }

  /** The position of the first occurrence of `x` in `s`. */
  function FirstIndex<T(==)>(s: seq<T>, x: T): (k: nat)
    requires x in s
    ensures k < |s| && s[k] == x
    ensures forall j :: 0 <= j < k ==> s[j] != x
  {
    if s[0] == x then 0 else 1 + FirstIndex(s[1..], x)
  }

  /** An element occurring in the first `m` positions has its first
      occurrence there. */
  lemma FirstIndexInPrefix<T>(s: seq<T>, m: nat, x: T)
    requires m <= |s| && x in s[..m]
    ensures FirstIndex(s, x) == FirstIndex(s[..m], x) < m
  {
    var k := FirstIndex(s[..m], x);
    assert s[k] == x;
  }

  /** `Array.from(new Set(s))`: the distinct elements of `s`. */
  function Distinct<T(==,!new)>(s: seq<T>): (r: seq<T>)
    ensures forall x :: x in r <==> x in s
    ensures NoDuplicates(r)
  {
    if s == [] then []
    else
      var init := Distinct(s[..|s| - 1]);
      var x := s[|s| - 1];
      assert s == s[..|s| - 1] + [x];
      if x in init then init else init + [x]
  }

  /** A `Set` iterates in insertion order, so the distinct elements come in
      the order of their first appearance in `s`. */
  lemma {:induction false} DistinctInFirstAppearanceOrder<T(!new)>(s: seq<T>)
    ensures forall i, j :: 0 <= i < j < |Distinct(s)| ==>
      FirstIndex(s, Distinct(s)[i]) < FirstIndex(s, Distinct(s)[j])
  {
    if s != [] {
      var n := |s| - 1;
      var init := Distinct(s[..n]);
      var x := s[n];
      DistinctInFirstAppearanceOrder(s[..n]);
      var r := Distinct(s);
      forall i, j | 0 <= i < j < |r| ensures FirstIndex(s, r[i]) < FirstIndex(s, r[j]) {
        assert r[i] in s[..n] by { assert r[i] == init[i]; }
        FirstIndexInPrefix(s, n, r[i]);
        if j < |init| {
          assert r[j] == init[j];
          FirstIndexInPrefix(s, n, r[j]);
        } else {
          assert r[j] == x && x !in s[..n];
          assert FirstIndex(s, x) == n;
        }
      }
    }
  }
}
