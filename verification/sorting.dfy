/** Python's `sorted(s, key=key, reverse=reverse)` on integer keys: a stable
    sort, where `reverse` orders by descending key and still keeps elements
    with equal keys in their original order. */
module Sorting {
  import Seqs

  /** Whether `a` may come before `b` in the result. */
  predicate InOrder(a: int, b: int, reverse: bool) {
    if reverse then a >= b else a <= b
  }

  predicate Sorted<T>(s: seq<T>, key: T -> int, reverse: bool) {
    forall i, j :: 0 <= i < j < |s| ==> InOrder(key(s[i]), key(s[j]), reverse)
  }

  /** Puts `x` in front of the first element it may precede that has a key
      no further along than its own, so that `x` precedes every element of
      `t` with an equal key. */
  function Insert<T>(x: T, t: seq<T>, key: T -> int, reverse: bool): (r: seq<T>)
    ensures |r| == |t| + 1
    ensures multiset(r) == multiset(t) + multiset{x}
  {
    if t == [] || InOrder(key(x), key(t[0]), reverse) then [x] + t
    else
      assert t == [t[0]] + t[1..];
      [t[0]] + Insert(x, t[1..], key, reverse)
  }

  function SortBy<T>(s: seq<T>, key: T -> int, reverse: bool): (r: seq<T>)
    ensures |r| == |s|
    ensures multiset(r) == multiset(s)
  {
    if s == [] then []
    else
      assert s == [s[0]] + s[1..];
      Insert(s[0], SortBy(s[1..], key, reverse), key, reverse)
  }

  /** The tail of a sorted list is sorted, and its head may precede all of it. */
  lemma SortedTail<T>(t: seq<T>, key: T -> int, reverse: bool)
    requires t != [] && Sorted(t, key, reverse)
    ensures Sorted(t[1..], key, reverse)
    ensures forall y :: y in t[1..] ==> InOrder(key(t[0]), key(y), reverse)
  {
    forall y | y in t[1..] ensures InOrder(key(t[0]), key(y), reverse) {
      var m :| 0 <= m < |t[1..]| && t[1..][m] == y;
      assert t[m + 1] == y;
    }
    forall i, j | 0 <= i < j < |t[1..]| ensures InOrder(key(t[1..][i]), key(t[1..][j]), reverse) {
      assert t[1..][i] == t[i + 1] && t[1..][j] == t[j + 1];
    }
  }

  /** Inserting adds `x` and nothing else. */
  lemma InsertMembers<T>(x: T, t: seq<T>, key: T -> int, reverse: bool)
    ensures forall y :: y in Insert(x, t, key, reverse) ==> y == x || y in t
  {
    var r := Insert(x, t, key, reverse);
    forall y | y in r ensures y == x || y in t {
      assert y in multiset(r);
    }
  }

  /** A head that may precede every element of a sorted list keeps it sorted. */
  lemma ConsSorted<T>(h: T, r: seq<T>, key: T -> int, reverse: bool)
    requires Sorted(r, key, reverse)
    requires forall y :: y in r ==> InOrder(key(h), key(y), reverse)
    ensures Sorted([h] + r, key, reverse)
  {
    var whole := [h] + r;
    forall i, j | 0 <= i < j < |whole| ensures InOrder(key(whole[i]), key(whole[j]), reverse) {
      if i == 0 {
        assert whole[j] == r[j - 1] && r[j - 1] in r;
      } else {
        assert whole[i] == r[i - 1] && whole[j] == r[j - 1];
      }
    }
  }

  lemma {:induction false} InsertSorted<T>(x: T, t: seq<T>, key: T -> int, reverse: bool)
    requires Sorted(t, key, reverse)
    ensures Sorted(Insert(x, t, key, reverse), key, reverse)
  {
    if t == [] || InOrder(key(x), key(t[0]), reverse) {
      ConsSorted(x, t, key, reverse);
    } else {
      SortedTail(t, key, reverse);
      InsertSorted(x, t[1..], key, reverse);
      InsertMembers(x, t[1..], key, reverse);
      ConsSorted(t[0], Insert(x, t[1..], key, reverse), key, reverse);
    }
  }

  /** The result is ordered by key: ascending, or descending when `reverse`. */
  lemma {:induction false} SortBySorted<T>(s: seq<T>, key: T -> int, reverse: bool)
    ensures Sorted(SortBy(s, key, reverse), key, reverse)
  {
    if s != [] {
      SortBySorted(s[1..], key, reverse);
      InsertSorted(s[0], SortBy(s[1..], key, reverse), key, reverse);
    }
  }

  /** The elements whose key is `k`. */
  function KeyIs<T>(key: T -> int, k: int): T -> bool {
    y => key(y) == k
  }

  lemma {:induction false} InsertStable<T(!new)>(x: T, t: seq<T>, key: T -> int, reverse: bool, k: int)
    requires Sorted(t, key, reverse)
    ensures Seqs.Filter(Insert(x, t, key, reverse), KeyIs(key, k))
         == if key(x) == k then [x] + Seqs.Filter(t, KeyIs(key, k)) else Seqs.Filter(t, KeyIs(key, k))
  {
    if t == [] || InOrder(key(x), key(t[0]), reverse) {
      assert ([x] + t)[1..] == t;
    } else {
      InsertStable(x, t[1..], key, reverse, k);
      var r := [t[0]] + Insert(x, t[1..], key, reverse);
      assert r[1..] == Insert(x, t[1..], key, reverse);
      if key(x) == k {
        assert key(t[0]) != k;
      }
    }
  }

  /** The sort is stable: the elements sharing any one key keep their
      original relative order. */
  lemma {:induction false} SortByStable<T(!new)>(s: seq<T>, key: T -> int, reverse: bool, k: int)
    ensures Seqs.Filter(SortBy(s, key, reverse), KeyIs(key, k)) == Seqs.Filter(s, KeyIs(key, k))
  {
    if s != [] {
      SortByStable(s[1..], key, reverse, k);
      SortBySorted(s[1..], key, reverse);
      InsertStable(s[0], SortBy(s[1..], key, reverse), key, reverse, k);
    }
  }
}
