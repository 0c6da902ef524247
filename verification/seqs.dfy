/** List comprehensions and `sum(...)` over Python lists, as functions on sequences. */
module Seqs {
  import opened Wrappers

  /** `[x for x in s if p(x)]` */
  function Filter<T(!new)>(s: seq<T>, p: T -> bool): (r: seq<T>)
    ensures |r| <= |s|
    ensures forall i :: 0 <= i < |r| ==> p(r[i])
    ensures forall x :: x in r <==> x in s && p(x)
    ensures forall x :: multiset(r)[x] == if p(x) then multiset(s)[x] else 0
  {
    if s == [] then []
    else
      var rest := Filter(s[1..], p);
      assert s == [s[0]] + s[1..];
      if p(s[0]) then [s[0]] + rest else rest
  }

  lemma {:induction false} FilterAppend<T(!new)>(a: seq<T>, b: seq<T>, p: T -> bool)
    ensures Filter(a + b, p) == Filter(a, p) + Filter(b, p)
  {
    if a == [] {
      assert a + b == b;
    } else {
      assert (a + b)[1..] == a[1..] + b;
      FilterAppend(a[1..], b, p);
    }
  }

  /** Filtering twice is filtering once by the conjunction. */
  lemma {:induction false} FilterFilter<T(!new)>(s: seq<T>, p: T -> bool, q: T -> bool, pq: T -> bool)
    requires forall x :: pq(x) == (p(x) && q(x))
    ensures Filter(Filter(s, p), q) == Filter(s, pq)
  {
    if s != [] {
      FilterFilter(s[1..], p, q, pq);
    }
  }

  /** Filters by pointwise-equal predicates agree. */
  lemma {:induction false} FilterSame<T(!new)>(s: seq<T>, p: T -> bool, q: T -> bool)
    requires forall x :: p(x) == q(x)
    ensures Filter(s, p) == Filter(s, q)
  {
    if s != [] {
      FilterSame(s[1..], p, q);
    }
  }

  /** A filter that keeps every element is the identity. */
  lemma {:induction false} FilterAll<T(!new)>(s: seq<T>, p: T -> bool)
    requires forall x :: x in s ==> p(x)
    ensures Filter(s, p) == s
  {
    if s != [] {
      assert s[0] in s;
      forall x | x in s[1..] ensures p(x) {
        assert x in s;
      }
      FilterAll(s[1..], p);
    }
  }

  /** `a` is `b` with some elements left out, the others kept in order. */
  predicate IsSubsequence<T(==)>(a: seq<T>, b: seq<T>)
    decreases |b|
  {
    a == [] || (b != [] && if a[0] == b[0] then IsSubsequence(a[1..], b[1..]) else IsSubsequence(a, b[1..]))
  }

  /** A comprehension keeps the order of its source. */
  lemma {:induction false} FilterIsSubsequence<T(!new)>(s: seq<T>, p: T -> bool)
    ensures IsSubsequence(Filter(s, p), s)
  {
    if s != [] {
      FilterIsSubsequence(s[1..], p);
      var rest := Filter(s[1..], p);
      if !p(s[0]) && rest != [] {
        assert p(rest[0]);
      }
    }
  }

  /** Dropping the head of a subsequence keeps it one. */
  lemma {:induction false} SubsequenceDrop<T>(a: seq<T>, c: seq<T>)
    requires a != [] && IsSubsequence(a, c)
    ensures IsSubsequence(a[1..], c)
    decreases |c|, 0
  {
    assert c == [c[0]] + c[1..];
    if a[0] == c[0] {
      SubsequenceWeaken(a[1..], c[1..], c[0]);
    } else {
      SubsequenceDrop(a, c[1..]);
      SubsequenceWeaken(a[1..], c[1..], c[0]);
    }
  }

  /** An extra element in front of the larger sequence keeps a subsequence one. */
  lemma {:induction false} SubsequenceWeaken<T>(a: seq<T>, c: seq<T>, x: T)
    requires IsSubsequence(a, c)
    ensures IsSubsequence(a, [x] + c)
    decreases |c|, 1
  {
    assert ([x] + c)[1..] == c;
    if a != [] && a[0] == x {
      SubsequenceDrop(a, c);
    }
  }

  lemma {:induction false} SubsequenceTrans<T>(a: seq<T>, b: seq<T>, c: seq<T>)
    requires IsSubsequence(a, b) && IsSubsequence(b, c)
    ensures IsSubsequence(a, c)
    decreases |c|
  {
    if a != [] {
      if b[0] == c[0] {
        if a[0] == b[0] {
          SubsequenceTrans(a[1..], b[1..], c[1..]);
        } else {
          SubsequenceTrans(a, b[1..], c[1..]);
        }
      } else {
        SubsequenceTrans(a, b, c[1..]);
        if a[0] == c[0] {
          SubsequenceDrop(a, c[1..]);
        }
      }
    }
  }

  /** Filtering a list extended by one element. */
  lemma FilterSnoc<T(!new)>(s: seq<T>, x: T, p: T -> bool)
    ensures Filter(s + [x], p) == if p(x) then Filter(s, p) + [x] else Filter(s, p)
  {
    FilterAppend(s, [x], p);
    assert Filter([x], p) == if p(x) then [x] else [];
  }

  /** Filtering a prefix one element longer. */
  lemma FilterPrefixSnoc<T(!new)>(s: seq<T>, n: nat, p: T -> bool)
    requires 0 < n <= |s|
    ensures Filter(s[..n], p) == if p(s[n - 1]) then Filter(s[..n - 1], p) + [s[n - 1]] else Filter(s[..n - 1], p)
  {
    assert s[..n] == s[..n - 1] + [s[n - 1]];
    FilterSnoc(s[..n - 1], s[n - 1], p);
  }

  /** A subset is no larger than its superset. */
  lemma {:induction false} SubsetCardinality<T>(a: set<T>, b: set<T>)
    requires a <= b
    ensures |a| <= |b|
    decreases a
  {
    if a != {} {
      var x :| x in a;
      SubsetCardinality(a - {x}, b - {x});
    }
  }

  /** `sum(f(x) for x in s)` */
  function Sum<T>(s: seq<T>, f: T -> real): real {
    if s == [] then 0.0 else f(s[0]) + Sum(s[1..], f)
  }

  /** `sum(f(x) for x in s)` over integers. */
  function SumInt<T>(s: seq<T>, f: T -> int): int {
    if s == [] then 0 else f(s[0]) + SumInt(s[1..], f)
  }

  lemma {:induction false} SumAppend<T>(a: seq<T>, b: seq<T>, f: T -> real)
    ensures Sum(a + b, f) == Sum(a, f) + Sum(b, f)
  {
    if a == [] {
      assert a + b == b;
    } else {
      assert (a + b)[1..] == a[1..] + b;
      SumAppend(a[1..], b, f);
    }
  }

  lemma {:induction false} SumIntAppend<T>(a: seq<T>, b: seq<T>, f: T -> int)
    ensures SumInt(a + b, f) == SumInt(a, f) + SumInt(b, f)
  {
    if a == [] {
      assert a + b == b;
    } else {
      assert (a + b)[1..] == a[1..] + b;
      SumIntAppend(a[1..], b, f);
    }
  }

  /** The sum of a non-empty list is that of all but its last element plus the last one's share. */
  lemma SumSnoc<T>(s: seq<T>, f: T -> real)
    requires s != []
    ensures Sum(s, f) == Sum(s[..|s| - 1], f) + f(s[|s| - 1])
  {
    assert s == s[..|s| - 1] + [s[|s| - 1]];
    SumAppend(s[..|s| - 1], [s[|s| - 1]], f);
  }

  lemma SumIntSnoc<T>(s: seq<T>, f: T -> int)
    requires s != []
    ensures SumInt(s, f) == SumInt(s[..|s| - 1], f) + f(s[|s| - 1])
  {
    assert s == s[..|s| - 1] + [s[|s| - 1]];
    SumIntAppend(s[..|s| - 1], [s[|s| - 1]], f);
  }

  /** The sum over a prefix one element longer. */
  lemma SumPrefixSnoc<T>(s: seq<T>, n: nat, f: T -> real)
    requires 0 < n <= |s|
    ensures Sum(s[..n], f) == Sum(s[..n - 1], f) + f(s[n - 1])
  {
    assert s[..n][..n - 1] == s[..n - 1];
    SumSnoc(s[..n], f);
  }

  lemma {:induction false} SumNonNegative<T>(s: seq<T>, f: T -> real)
    requires forall x :: x in s ==> f(x) >= 0.0
    ensures Sum(s, f) >= 0.0
  {
    if s != [] {
      SumNonNegative(s[1..], f);
    }
  }

  lemma {:induction false} SumIntNonNegative<T>(s: seq<T>, f: T -> int)
    requires forall x :: x in s ==> f(x) >= 0
    ensures SumInt(s, f) >= 0
  {
    if s != [] {
      SumIntNonNegative(s[1..], f);
    }
  }

  /** A pointwise smaller summand gives a smaller sum. */
  lemma {:induction false} SumIntMonotone<T>(s: seq<T>, f: T -> int, g: T -> int)
    requires forall x :: x in s ==> f(x) <= g(x)
    ensures SumInt(s, f) <= SumInt(s, g)
  {
    if s != [] {
      SumIntMonotone(s[1..], f, g);
    }
  }

  /** Replacing one element changes the sum by the difference. */
  lemma {:induction false} SumUpdate<T>(s: seq<T>, j: nat, y: T, f: T -> real)
    requires j < |s|
    ensures Sum(s[j := y], f) == Sum(s, f) - f(s[j]) + f(y)
  {
    if j > 0 {
      assert s[j := y][1..] == s[1..][j - 1 := y];
      SumUpdate(s[1..], j - 1, y, f);
    } else {
      assert s[j := y][1..] == s[1..];
    }
  }

  /** Splitting a list by a predicate and its negation splits its sum. */
  lemma {:induction false} SumPartition<T(!new)>(s: seq<T>, f: T -> real, p: T -> bool, q: T -> bool)
    requires forall x :: q(x) == !p(x)
    ensures Sum(s, f) == Sum(Filter(s, p), f) + Sum(Filter(s, q), f)
  {
    if s != [] {
      SumPartition(s[1..], f, p, q);
    }
  }

  /** Summing over the filtered list is summing over the whole list with
      the rejected elements counted as nothing. */
  lemma {:induction false} SumFilter<T(!new)>(s: seq<T>, p: T -> bool, f: T -> real, g: T -> real)
    requires forall x :: g(x) == if p(x) then f(x) else 0.0
    ensures Sum(Filter(s, p), f) == Sum(s, g)
  {
    if s != [] {
      SumFilter(s[1..], p, f, g);
    }
  }

  /** `len([x for x in s if p(x)])`, counted from the end. */
  function Count<T>(s: seq<T>, p: T -> bool): (c: nat)
    ensures c <= |s|
  {
    if s == [] then 0 else Count(s[..|s| - 1], p) + if p(s[|s| - 1]) then 1 else 0
  }

  /** The count is the length of the filtered list. */
  lemma {:induction false} CountFilter<T(!new)>(s: seq<T>, p: T -> bool)
    ensures Count(s, p) == |Filter(s, p)|
    decreases |s|
  {
    if s != [] {
      var init := s[..|s| - 1];
      CountFilter(init, p);
      assert s == init + [s[|s| - 1]];
      FilterSnoc(init, s[|s| - 1], p);
    }
  }

  /** The count over a prefix one element longer. */
  lemma CountPrefixSnoc<T>(s: seq<T>, n: nat, p: T -> bool)
    requires 0 < n <= |s|
    ensures Count(s[..n], p) == Count(s[..n - 1], p) + if p(s[n - 1]) then 1 else 0
  {
    assert s[..n][..n - 1] == s[..n - 1];
  }

  /** Every element is counted exactly when every element satisfies `p`. */
  lemma {:induction false} CountFull<T>(s: seq<T>, p: T -> bool)
    ensures Count(s, p) == |s| <==> forall i :: 0 <= i < |s| ==> p(s[i])
    decreases |s|
  {
    if s != [] {
      var init := s[..|s| - 1];
      CountFull(init, p);
      if forall i :: 0 <= i < |s| ==> p(s[i]) {
        forall i | 0 <= i < |init| ensures p(init[i]) { assert init[i] == s[i]; }
      }
      if Count(s, p) == |s| {
        forall i | 0 <= i < |s| ensures p(s[i]) {
          if i < |init| { assert s[i] == init[i]; }
        }
      }
    }
  }

  /** The occurrences of `x` in a non-empty list: those before the last element, and the last one. */
  lemma MultisetLast<T>(s: seq<T>, x: T)
    requires s != []
    ensures multiset(s)[x] == multiset(s[..|s| - 1])[x] + if x == s[|s| - 1] then 1 else 0
  {
    assert s == s[..|s| - 1] + [s[|s| - 1]];
  }

  /** Adding the same element to equal multisets gives equal multisets. */
  lemma SameAddition<T>(ma: multiset<T>, ra: multiset<T>, mb: multiset<T>, rb: multiset<T>, x: T)
    requires ma == ra + multiset{x} && mb == rb + multiset{x} && ra == rb
    ensures ma == mb
  {
  }

  /** Taking one element out of a list takes its summand out of the sum. */
  lemma {:induction false} SumRemove<T>(b: seq<T>, k: nat, f: T -> real)
    requires k < |b|
    ensures Sum(b, f) == f(b[k]) + Sum(b[..k] + b[k + 1..], f)
  {
    var rest := [b[k]] + b[k + 1..];
    assert b == b[..k] + rest;
    SumAppend(b[..k], rest, f);
    assert rest[1..] == b[k + 1..];
    assert Sum(rest, f) == f(b[k]) + Sum(b[k + 1..], f);
    SumAppend(b[..k], b[k + 1..], f);
  }

  /** Taking the matching element out of a permutation leaves a permutation of the tail. */
  lemma MultisetRemove<T>(a: seq<T>, b: seq<T>, k: nat)
    requires multiset(a) == multiset(b) && a != [] && k < |b| && b[k] == a[0]
    ensures multiset(b[..k] + b[k + 1..]) == multiset(a[1..])
  {
    var b' := b[..k] + b[k + 1..];
    assert b == b[..k] + [b[k]] + b[k + 1..];
    assert a == [a[0]] + a[1..];
    forall x ensures multiset(b')[x] == multiset(a[1..])[x] {
      calc {
        multiset(b')[x] + multiset{a[0]}[x];
        multiset(b[..k])[x] + multiset{b[k]}[x] + multiset(b[k + 1..])[x];
        multiset(b)[x];
        multiset(a)[x];
        multiset{a[0]}[x] + multiset(a[1..])[x];
      }
    }
  }

  /** Sequences with the same multiset have the same sum. */
  lemma {:induction false} SumPermutation<T>(a: seq<T>, b: seq<T>, f: T -> real)
    requires multiset(a) == multiset(b)
    ensures Sum(a, f) == Sum(b, f)
    decreases |a|
  {
    if a != [] {
      assert a[0] in multiset(b) by { assert a[0] in multiset(a); }
      var k :| 0 <= k < |b| && b[k] == a[0];
      var b' := b[..k] + b[k + 1..];
      MultisetRemove(a, b, k);
      SumPermutation(a[1..], b', f);
      SumRemove(b, k, f);
    }
  }

  /** The values present in a list of optional values, in order. */
  function Somes<T>(s: seq<Option<T>>): seq<T> {
    if s == [] then []
    else Somes(s[..|s| - 1]) + (if s[|s| - 1].Some? then [s[|s| - 1].value] else [])
  }

  lemma {:induction false} SomesMembers<T>(s: seq<Option<T>>, x: T)
    ensures x in Somes(s) <==> exists i :: 0 <= i < |s| && s[i] == Some(x)
  {
    if s != [] {
      var init := s[..|s| - 1];
      SomesMembers(init, x);
      if exists i :: 0 <= i < |s| && s[i] == Some(x) {
        var i :| 0 <= i < |s| && s[i] == Some(x);
        if i < |init| {
          assert init[i] == s[i];
        }
      }
      if exists i :: 0 <= i < |init| && init[i] == Some(x) {
        var i :| 0 <= i < |init| && init[i] == Some(x);
        assert s[i] == init[i];
      }
    }
  }

  lemma {:induction false} SomesNone<T>(s: seq<Option<T>>)
    requires forall i :: 0 <= i < |s| ==> s[i].None?
    ensures Somes(s) == []
  {
    if s != [] {
      SomesNone(s[..|s| - 1]);
    }
  }

  /** Extending a prefix by one element. */
  lemma SomesPrefix<T>(s: seq<Option<T>>, n: nat)
    requires n < |s|
    ensures Somes(s[..n + 1]) == Somes(s[..n]) + (if s[n].Some? then [s[n].value] else [])
  {
    assert s[..n + 1][..n] == s[..n];
  }

  /** The lists put end to end. */
  function Concat<T>(ss: seq<seq<T>>): seq<T> {
    if ss == [] then [] else Concat(ss[..|ss| - 1]) + ss[|ss| - 1]
  }

  lemma {:induction false} ConcatMembers<T>(ss: seq<seq<T>>, x: T)
    ensures x in Concat(ss) <==> exists i :: 0 <= i < |ss| && x in ss[i]
  {
    if ss != [] {
      var init := ss[..|ss| - 1];
      ConcatMembers(init, x);
      if exists i :: 0 <= i < |ss| && x in ss[i] {
        var i :| 0 <= i < |ss| && x in ss[i];
        if i < |init| {
          assert init[i] == ss[i];
        }
      }
      if exists i :: 0 <= i < |init| && x in init[i] {
        var i :| 0 <= i < |init| && x in init[i];
        assert ss[i] == init[i];
      }
    }
  }

  lemma ConcatPrefix<T>(ss: seq<seq<T>>, n: nat)
    requires n < |ss|
    ensures Concat(ss[..n + 1]) == Concat(ss[..n]) + ss[n]
  {
    assert ss[..n + 1][..n] == ss[..n];
  }
}
