/**
 * The array methods the app uses on its lists: `filter`, `map`, `find`,
 * `slice(0, n)` and `sort` with a numeric comparator.
 */
module Seqs {
  import opened Wrappers

  // ---------------------------------------------------------------------------
  // Order-preserving sub-lists
  // ---------------------------------------------------------------------------

  /** `a` is `b` with some elements left out and the rest in their original order. */
  predicate IsSubsequence<T(==)>(a: seq<T>, b: seq<T>)
    decreases |b|
  {
    a == [] || (b != [] && if a[0] == b[0] then IsSubsequence(a[1..], b[1..]) else IsSubsequence(a, b[1..]))
  }

  /** A list is an order-preserving sub-list of itself. */
  lemma {:induction false} SubsequenceRefl<T>(s: seq<T>)
    ensures IsSubsequence(s, s)
    decreases |s|
  {
    if s != [] {
      SubsequenceRefl(s[1..]);
    }
  }

  /** A prefix of an order-preserving sub-list is one too. */
  lemma {:induction false} SubsequencePrefix<T>(a: seq<T>, b: seq<T>, k: nat)
    requires IsSubsequence(a, b) && k <= |a|
    ensures IsSubsequence(a[..k], b)
    decreases |b|
  {
    if k > 0 {
      if a[0] == b[0] {
        SubsequencePrefix(a[1..], b[1..], k - 1);
        assert a[..k][1..] == a[1..][..k - 1];
      } else {
        SubsequencePrefix(a, b[1..], k);
      }
    }
  }

  // ---------------------------------------------------------------------------
  // filter
  // ---------------------------------------------------------------------------

  /** `s.filter(keep)`: exactly the kept elements, in their order (their counts: `FilterCounts`). */
  function Filter<T(==,!new)>(s: seq<T>, keep: T -> bool): (r: seq<T>)
    ensures |r| <= |s|
    ensures forall x :: x in r <==> x in s && keep(x)
    ensures IsSubsequence(r, s)
  {
    if s == [] then []
    else
      var rest := Filter(s[1..], keep);
      assert s == [s[0]] + s[1..];
      if keep(s[0]) then [s[0]] + rest else rest
  }

  /** Each kept value occurs in the result as often as in `s`; a dropped value not at all. */
  lemma {:induction false} FilterCounts<T(!new)>(s: seq<T>, keep: T -> bool)
    ensures forall x :: multiset(Filter(s, keep))[x] == if keep(x) then multiset(s)[x] else 0
  {
    if s != [] {
      FilterCounts(s[1..], keep);
      assert s == [s[0]] + s[1..];
    }
  }

  /** Filtering with a test every element passes changes nothing. */
  lemma {:induction false} FilterAllKept<T(!new)>(s: seq<T>, keep: T -> bool)
    requires forall i :: 0 <= i < |s| ==> keep(s[i])
    ensures Filter(s, keep) == s
  {
    if s != [] {
      FilterAllKept(s[1..], keep);
    }
  }

  /** Filtering a list with a known first element. */
  lemma FilterCons<T(!new)>(x: T, t: seq<T>, keep: T -> bool)
    ensures Filter([x] + t, keep) == if keep(x) then [x] + Filter(t, keep) else Filter(t, keep)
  {
    assert ([x] + t)[1..] == t;
  }

  /** Filtering a concatenation filters each part. */
  lemma {:induction false} FilterAppend<T(!new)>(a: seq<T>, b: seq<T>, keep: T -> bool)
    ensures Filter(a + b, keep) == Filter(a, keep) + Filter(b, keep)
  {
    if a == [] {
      assert a + b == b;
    } else {
      var x, t := a[0], a[1..];
      var ft, fb := Filter(t, keep), Filter(b, keep);
      calc {
        Filter(a + b, keep);
        { assert a == [x] + t; assert a + b == [x] + (t + b); FilterCons(x, t + b, keep); }
        if keep(x) then [x] + Filter(t + b, keep) else Filter(t + b, keep);
        { FilterAppend(t, b, keep); }
        if keep(x) then [x] + (ft + fb) else ft + fb;
        { assert [x] + (ft + fb) == ([x] + ft) + fb; }
        (if keep(x) then [x] + ft else ft) + fb;
        { assert a == [x] + t; FilterCons(x, t, keep); }
        Filter(a, keep) + fb;
      }
    }
  }

  // ---------------------------------------------------------------------------
  // findIndex, find
  // ---------------------------------------------------------------------------

  /** `s.findIndex(p)`: the position of the first element that passes, if any. */
  function FirstIndex<T>(s: seq<T>, p: T -> bool): (r: Option<nat>)
    ensures r.Some? ==> r.value < |s| && p(s[r.value]) && forall j :: 0 <= j < r.value ==> !p(s[j])
    ensures r.None? ==> forall j :: 0 <= j < |s| ==> !p(s[j])
  {
    if s == [] then None
    else if p(s[0]) then Some(0)
    else
      var rest := FirstIndex(s[1..], p);
      if rest.Some? then Some(rest.value + 1) else None
  }

  /** `s.find(p)`: the first element that passes, if any. */
  function Find<T>(s: seq<T>, p: T -> bool): (r: Option<T>)
    ensures r.Some? ==> exists i :: 0 <= i < |s| && s[i] == r.value && p(s[i]) && forall j :: 0 <= j < i ==> !p(s[j])
    ensures r.None? ==> forall j :: 0 <= j < |s| ==> !p(s[j])
  {
    var k := FirstIndex(s, p);
    if k.Some? then Some(s[k.value]) else None
  }

  // ---------------------------------------------------------------------------
  // map
  // ---------------------------------------------------------------------------

  /** `s.map(f)`. */
  function Map<T, U>(s: seq<T>, f: T -> U): (r: seq<U>)
    ensures |r| == |s|
    ensures forall i :: 0 <= i < |s| ==> r[i] == f(s[i])
  {
    seq(|s|, i requires 0 <= i < |s| => f(s[i]))
  }

  /** `map` distributes over concatenation. */
  lemma MapAppend<T, U>(a: seq<T>, b: seq<T>, f: T -> U)
    ensures Map(a + b, f) == Map(a, f) + Map(b, f)
  {
    assert forall k :: 0 <= k < |a + b| ==> Map(a + b, f)[k] == (Map(a, f) + Map(b, f))[k];
  }

  /** Taking the same element out of two arrangements of the same elements leaves two such arrangements. */
  lemma Unpick<T>(a: seq<T>, b: seq<T>, i: nat)
    requires multiset(a) == multiset(b) && a != [] && i < |b| && b[i] == a[0]
    ensures multiset(a[1..]) == multiset(b[..i] + b[i + 1..])
  {
    assert a == [a[0]] + a[1..];
    assert b == b[..i] + [b[i]] + b[i + 1..];
    assert multiset(a) == multiset{a[0]} + multiset(a[1..]);
    assert multiset(b) == multiset(b[..i]) + multiset{b[i]} + multiset(b[i + 1..]);
    assert multiset(b[..i] + b[i + 1..]) == multiset(b[..i]) + multiset(b[i + 1..]);
    forall y
      ensures multiset(a[1..])[y] == multiset(b[..i] + b[i + 1..])[y]
    {
      assert multiset(a)[y] == multiset(b)[y];
    }
  }

  /** The images of a list are the image of one element together with the images of the others. */
  lemma MapPick<T, U>(b: seq<T>, i: nat, f: T -> U)
    requires i < |b|
    ensures multiset(Map(b, f)) == multiset(Map(b[..i] + b[i + 1..], f)) + multiset{f(b[i])}
  {
    var left, right := b[..i], b[i + 1..];
    assert b == left + ([b[i]] + right);
    MapAppend(left, [b[i]] + right, f);
    MapAppend([b[i]], right, f);
    MapAppend(left, right, f);
    assert Map([b[i]], f) == [f(b[i])];
  }

  /** Mapping two arrangements of the same elements gives two arrangements of the same images. */
  lemma {:induction false} MapPermutation<T, U>(a: seq<T>, b: seq<T>, f: T -> U)
    requires multiset(a) == multiset(b)
    ensures multiset(Map(a, f)) == multiset(Map(b, f))
    decreases |a|
  {
    if a != [] {
      assert a[0] in multiset(b);
      var i :| 0 <= i < |b| && b[i] == a[0];
      Unpick(a, b, i);
      MapPermutation(a[1..], b[..i] + b[i + 1..], f);
      MapPermutationStep(a, b, i, f);
    }
  }

  /** One step of `MapPermutation`: the first element and its match are taken out of both lists. */
  lemma MapPermutationStep<T, U>(a: seq<T>, b: seq<T>, i: nat, f: T -> U)
    requires a != [] && i < |b| && b[i] == a[0]
    requires multiset(Map(a[1..], f)) == multiset(Map(b[..i] + b[i + 1..], f))
    ensures multiset(Map(a, f)) == multiset(Map(b, f))
  {
    MapCons(a, f);
    MapPick(b, i, f);
  }

  /** The images of a non-empty list are the image of its head together with the images of its tail. */
  lemma MapCons<T, U>(a: seq<T>, f: T -> U)
    requires a != []
    ensures multiset(Map(a, f)) == multiset(Map(a[1..], f)) + multiset{f(a[0])}
  {
    assert a == [a[0]] + a[1..];
    MapAppend([a[0]], a[1..], f);
    assert Map([a[0]], f) == [f(a[0])];
  }

  // ---------------------------------------------------------------------------
  // sort by a numeric key
  // ---------------------------------------------------------------------------

  /** Ascending by `key`. */
  predicate SortedBy<T>(s: seq<T>, key: T -> int) {
    forall i, j :: 0 <= i < j < |s| ==> key(s[i]) <= key(s[j])
  }

  /** Inserts `x` before the first element whose key is not smaller than its own. */
  function InsertBy<T(==,!new)>(x: T, s: seq<T>, key: T -> int): (r: seq<T>)
    requires SortedBy(s, key)
    ensures SortedBy(r, key)
    ensures multiset(r) == multiset(s) + multiset{x}
  {
    if s == [] || key(x) <= key(s[0]) then
      SortedFirstIsLeast(s, key);
      SortedCons(x, s, key);
      [x] + s
    else
      var rest := InsertBy(x, s[1..], key);
      SortedFirstIsLeast(s, key);
      LowerBoundKept(key(s[0]), s[1..], x, rest, key);
      SortedCons(s[0], rest, key);
      assert s == [s[0]] + s[1..];
      [s[0]] + rest
  }

  /** A lower bound of every key in `s` and of `x` bounds every key of a permutation of `s` plus `x`. */
  lemma LowerBoundKept<T(!new)>(bound: int, s: seq<T>, x: T, r: seq<T>, key: T -> int)
    requires forall i :: 0 <= i < |s| ==> bound <= key(s[i])
    requires bound <= key(x)
    requires multiset(r) == multiset(s) + multiset{x}
    ensures forall i :: 0 <= i < |r| ==> bound <= key(r[i])
  {
    forall i | 0 <= i < |r|
      ensures bound <= key(r[i])
    {
      assert r[i] in multiset(r);
      if r[i] != x {
        assert r[i] in multiset(s);
        var j :| 0 <= j < |s| && s[j] == r[i];
      }
    }
  }

  /** In a sorted list no key is below the first. */
  lemma SortedFirstIsLeast<T>(s: seq<T>, key: T -> int)
    requires SortedBy(s, key)
    ensures forall i :: 0 < i < |s| ==> key(s[0]) <= key(s[i])
    ensures s != [] ==> SortedBy(s[1..], key)
  {
  }

  /** An element no greater than any key of a sorted list can go in front of it. */
  lemma SortedCons<T>(y: T, t: seq<T>, key: T -> int)
    requires SortedBy(t, key)
    requires forall i :: 0 <= i < |t| ==> key(y) <= key(t[i])
    ensures SortedBy([y] + t, key)
  {
    var r := [y] + t;
    forall i, j | 0 <= i < j < |r|
      ensures key(r[i]) <= key(r[j])
    {
      assert r[j] == t[j - 1];
      if i > 0 {
        assert r[i] == t[i - 1];
      }
    }
  }

  /**
   * `s.sort((a, b) => key(a) - key(b))`: a permutation of `s`, ascending by
   * `key`.
   */
  function SortBy<T(==,!new)>(s: seq<T>, key: T -> int): (r: seq<T>)
    ensures SortedBy(r, key)
    ensures multiset(r) == multiset(s)
    ensures |r| == |s|
  {
    if s == [] then []
    else
      assert s == [s[0]] + s[1..];
      InsertBy(s[0], SortBy(s[1..], key), key)
  }
}
