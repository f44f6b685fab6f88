/** Sequence operations the pages apply to query results: an order-preserving
    filter (the client-side reading of an equality `where`, and the `reduce`
    that splits a list in two) and the stable sort `Array.prototype.sort`
    performs with a numeric comparator. */
module Seqs {

  /** The elements of `s` that satisfy `p`, in their order in `s`. */
  function Filter<T(!new)>(s: seq<T>, p: T -> bool): (r: seq<T>)
    ensures |r| <= |s|
    ensures forall x :: x in r <==> x in s && p(x)
    ensures multiset(r) <= multiset(s)
  {
    if s == [] then []
    else
      var rest := Filter(s[1..], p);
      assert s == [s[0]] + s[1..];
      if p(s[0]) then [s[0]] + rest else rest
  }

  /** One element's membership in a filtered sequence. */
  lemma FilterMember<T(!new)>(s: seq<T>, p: T -> bool, x: T)
    ensures x in Filter(s, p) <==> x in s && p(x)
  {
  }

  lemma FilterHead<T(!new)>(s: seq<T>, p: T -> bool)
    requires s != []
    ensures Filter(s, p) == (if p(s[0]) then [s[0]] else []) + Filter(s[1..], p)
  {
  }

  /** The head step of `Filter`, counted as a multiset. */
  lemma FilterHeadCount<T(!new)>(s: seq<T>, p: T -> bool)
    requires s != []
    ensures multiset(Filter(s, p)) ==
              (if p(s[0]) then multiset{s[0]} else multiset{}) + multiset(Filter(s[1..], p))
  {
    FilterHead(s, p);
  }

  /** Splitting by a predicate and by its negation loses and duplicates
      nothing: the two parts together are a permutation of the input. */
  lemma {:induction false} FilterSplitIsPermutation<T(!new)>(s: seq<T>, p: T -> bool, q: T -> bool)
    requires forall i :: 0 <= i < |s| ==> q(s[i]) == !p(s[i])
    ensures multiset(Filter(s, p)) + multiset(Filter(s, q)) == multiset(s)
  {
    if s != [] {
      assert forall i :: 0 <= i < |s[1..]| ==> s[1..][i] == s[i + 1];
      FilterSplitIsPermutation(s[1..], p, q);
      FilterHeadCount(s, p);
      FilterHeadCount(s, q);
      MultisetCons(s);
      HeadGoesOneWay(s[0], multiset(s[1..]), multiset(Filter(s[1..], p)), multiset(Filter(s[1..], q)),
                     multiset(Filter(s, p)), multiset(Filter(s, q)), p(s[0]));
    }
  }

  lemma MultisetCons<T>(s: seq<T>)
    requires s != []
    ensures multiset(s) == multiset{s[0]} + multiset(s[1..])
  {
    assert s == [s[0]] + s[1..];
  }

  /** One element added to exactly one of two parts of a split keeps the
      parts a split of the grown whole. */
  lemma HeadGoesOneWay<T>(x: T, tail: multiset<T>, a: multiset<T>, b: multiset<T>,
                          a': multiset<T>, b': multiset<T>, left: bool)
    requires a + b == tail
    requires a' == (if left then multiset{x} else multiset{}) + a
    requires b' == (if !left then multiset{x} else multiset{}) + b
    ensures a' + b' == multiset{x} + tail
  {
  }

  /** Two permutations of each other hold the same elements. */
  lemma SameElements<T>(a: seq<T>, b: seq<T>)
    requires multiset(a) == multiset(b)
    ensures forall x :: x in a <==> x in b
  {
    forall x ensures x in a <==> x in b {
      assert x in a <==> x in multiset(a);
      assert x in b <==> x in multiset(b);
    }
  }

  // ---------------------------------------------------------------------
  // Sorting by an integer key

  /** `a` may stand before `b` in a list ordered by `key`, ascending or, when
      `desc`, descending. */
  predicate InOrder<T>(a: T, b: T, key: T -> int, desc: bool)
  {
    if desc then key(a) >= key(b) else key(a) <= key(b)
  }

  /** Each element may stand before its successor. */
  predicate Sorted<T>(s: seq<T>, key: T -> int, desc: bool)
  {
    forall i :: 0 < i < |s| ==> InOrder(s[i - 1], s[i], key, desc)
  }

  /** Insert `x` in front of the first element it may precede, that is behind
      every element that must stand strictly before it; among equal keys `x`
      comes first. */
  function Insert<T>(x: T, s: seq<T>, key: T -> int, desc: bool): (r: seq<T>)
    requires Sorted(s, key, desc)
    ensures Sorted(r, key, desc)
    ensures multiset(r) == multiset(s) + multiset{x}
    ensures |r| == |s| + 1
    ensures r[0] == x || (s != [] && r[0] == s[0])
  {
    if s == [] || InOrder(x, s[0], key, desc) then [x] + s
    else
      assert s == [s[0]] + s[1..];
      [s[0]] + Insert(x, s[1..], key, desc)
  }

  /** The stable sort of `s` by `key`: a permutation of `s` in key order. */
  function SortBy<T>(s: seq<T>, key: T -> int, desc: bool): (r: seq<T>)
    ensures Sorted(r, key, desc)
    ensures multiset(r) == multiset(s)
    ensures |r| == |s|
  {
    if s == [] then []
    else
      assert s == [s[0]] + s[1..];
      Insert(s[0], SortBy(s[1..], key, desc), key, desc)
  }

  /** The elements of `s` whose key is `k`, in their order in `s`. */
  function WithKey<T>(s: seq<T>, key: T -> int, k: int): seq<T>
  {
    if s == [] then []
    else (if key(s[0]) == k then [s[0]] else []) + WithKey(s[1..], key, k)
  }

  lemma WithKeyCons<T>(a: T, t: seq<T>, key: T -> int, k: int)
    ensures WithKey([a] + t, key, k) == (if key(a) == k then [a] else []) + WithKey(t, key, k)
  {
    assert ([a] + t)[1..] == t;
  }

  lemma {:induction false} InsertKeepsTies<T>(x: T, s: seq<T>, key: T -> int, desc: bool, k: int)
    requires Sorted(s, key, desc)
    ensures WithKey(Insert(x, s, key, desc), key, k)
            == (if key(x) == k then [x] else []) + WithKey(s, key, k)
  {
    if s == [] || InOrder(x, s[0], key, desc) {
      WithKeyCons(x, s, key, k);
    } else {
      var rest := Insert(x, s[1..], key, desc);
      InsertKeepsTies(x, s[1..], key, desc, k);
      WithKeyCons(s[0], rest, key, k);
      WithKeyCons(s[0], s[1..], key, k);
      assert [s[0]] + s[1..] == s;
      assert key(s[0]) != key(x);
    }
  }

  /** The sort is stable: elements with equal keys keep their input order. */
  lemma {:induction false} SortByIsStable<T>(s: seq<T>, key: T -> int, desc: bool, k: int)
    ensures WithKey(SortBy(s, key, desc), key, k) == WithKey(s, key, k)
  {
    if s != [] {
      SortByIsStable(s[1..], key, desc, k);
      InsertKeepsTies(s[0], SortBy(s[1..], key, desc), key, desc, k);
    }
  }
}
