/** Python dictionaries, which keep their keys in insertion order, as
    association lists. */
module Dicts {
  import opened Wrappers

  type Dict<K, V> = seq<(K, V)>

  predicate UniqueKeys<K(==), V>(d: Dict<K, V>) {
    forall i, j :: 0 <= i < j < |d| ==> d[i].0 != d[j].0
  }

  function Keys<K, V>(d: Dict<K, V>): (ks: seq<K>)
    ensures |ks| == |d| && forall i :: 0 <= i < |d| ==> ks[i] == d[i].0
  {
    seq(|d|, i requires 0 <= i < |d| => d[i].0)
  }

  function Values<K, V>(d: Dict<K, V>): (vs: seq<V>)
    ensures |vs| == |d| && forall i :: 0 <= i < |d| ==> vs[i] == d[i].1
  {
    seq(|d|, i requires 0 <= i < |d| => d[i].1)
  }

  /** `d.get(k)` */
  function Get<K(==), V(==)>(d: Dict<K, V>, k: K): (r: Option<V>)
    ensures r.None? <==> forall i :: 0 <= i < |d| ==> d[i].0 != k
    ensures r.Some? ==> exists i :: 0 <= i < |d| && d[i] == (k, r.value)
  {
    if d == [] then None
    else if d[0].0 == k then Some(d[0].1)
    else
      var r := Get(d[1..], k);
      assert r.Some? ==> exists i :: 0 <= i < |d[1..]| && d[1..][i] == (k, r.value);
      assert r.Some? ==> exists i :: 0 <= i < |d| && d[i] == (k, r.value) by {
        if r.Some? {
          var i :| 0 <= i < |d[1..]| && d[1..][i] == (k, r.value);
          assert d[i + 1] == (k, r.value);
        }
      }
      r
  }

  /** `d[k] = v`: an existing key keeps its place, a new key goes last. */
  function Put<K(==,!new), V(==)>(d: Dict<K, V>, k: K, v: V): (r: Dict<K, V>)
    ensures Keys(r) == if Get(d, k).Some? then Keys(d) else Keys(d) + [k]
    ensures Get(r, k) == Some(v)
    ensures forall k' :: k' != k ==> Get(r, k') == Get(d, k')
    ensures UniqueKeys(d) ==> UniqueKeys(r)
  {
    if d == [] then [(k, v)]
    else if d[0].0 == k then [(k, v)] + d[1..]
    else
      var rest := Put(d[1..], k, v);
      PutConsKeys(d, k, rest);
      PutConsGet(d, k, v, rest);
      assert UniqueKeys(d) ==> UniqueKeys([d[0]] + rest) by {
        if UniqueKeys(d) {
          UniqueTail(d);
          ConsUnique(d[0], rest);
        }
      }
      [d[0]] + rest
  }

  /** The keys after a write behind an unchanged first entry. */
  lemma PutConsKeys<K, V>(d: Dict<K, V>, k: K, rest: Dict<K, V>)
    requires d != [] && d[0].0 != k
    requires Keys(rest) == if Get(d[1..], k).Some? then Keys(d[1..]) else Keys(d[1..]) + [k]
    ensures Keys([d[0]] + rest) == if Get(d, k).Some? then Keys(d) else Keys(d) + [k]
  {
    assert Get(d, k) == Get(d[1..], k);
    assert d == [d[0]] + d[1..];
    KeysCons(d[0], d[1..]);
    KeysCons(d[0], rest);
    if Get(d[1..], k).None? {
      assert [d[0].0] + (Keys(d[1..]) + [k]) == ([d[0].0] + Keys(d[1..])) + [k];
    }
  }

  lemma KeysCons<K, V>(x: (K, V), rest: Dict<K, V>)
    ensures Keys([x] + rest) == [x.0] + Keys(rest)
  {
  }

  /** Lookups after a write behind an unchanged first entry. */
  lemma PutConsGet<K, V>(d: Dict<K, V>, k: K, v: V, rest: Dict<K, V>)
    requires d != [] && d[0].0 != k
    requires Get(rest, k) == Some(v)
    requires forall k' :: k' != k ==> Get(rest, k') == Get(d[1..], k')
    ensures Get([d[0]] + rest, k) == Some(v)
    ensures forall k' :: k' != k ==> Get([d[0]] + rest, k') == Get(d, k')
  {
    assert ([d[0]] + rest)[1..] == rest;
  }

  /** Under unique keys the first key does not recur and the rest are unique. */
  lemma UniqueTail<K, V>(d: Dict<K, V>)
    requires d != [] && UniqueKeys(d)
    ensures d[0].0 !in Keys(d[1..]) && UniqueKeys(d[1..])
  {
    forall j | 0 <= j < |d[1..]| ensures Keys(d[1..])[j] != d[0].0 {
      assert Keys(d[1..])[j] == d[j + 1].0;
    }
    forall i, j | 0 <= i < j < |d[1..]| ensures d[1..][i].0 != d[1..][j].0 {
      assert d[1..][i] == d[i + 1] && d[1..][j] == d[j + 1];
    }
  }

  /** A new key in front of unique keys keeps them unique. */
  lemma ConsUnique<K, V>(x: (K, V), rest: Dict<K, V>)
    requires UniqueKeys(rest) && x.0 !in Keys(rest)
    ensures UniqueKeys([x] + rest)
  {
    var r := [x] + rest;
    forall i, j | 0 <= i < j < |r| ensures r[i].0 != r[j].0 {
      if i == 0 {
        assert r[j].0 == Keys(rest)[j - 1];
      } else {
        assert r[i] == rest[i - 1] && r[j] == rest[j - 1];
      }
    }
  }

  /** A second write to the same key only replaces the value. */
  lemma {:induction false} PutTwice<K(!new), V>(d: Dict<K, V>, k: K, v: V, v': V)
    ensures Put(Put(d, k, v), k, v') == Put(d, k, v')
  {
    if d != [] && d[0].0 != k {
      PutTwice(d[1..], k, v, v');
      assert Put(d, k, v)[1..] == Put(d[1..], k, v);
    }
  }

  /** `sum(f(v) for v in d.values())` over integers. */
  function SumValues<K, V>(d: Dict<K, V>, f: V -> int): int {
    if d == [] then 0 else f(d[0].1) + SumValues(d[1..], f)
  }

  /** `sum(f(v) for v in d.values())` over reals. */
  function SumValuesReal<K, V>(d: Dict<K, V>, f: V -> real): real {
    if d == [] then 0.0 else f(d[0].1) + SumValuesReal(d[1..], f)
  }

  /** Writing `v` under `k` replaces the old value's share of the sum by `f(v)`. */
  lemma {:induction false} PutSumValues<K(!new), V>(d: Dict<K, V>, k: K, v: V, f: V -> int)
    ensures SumValues(Put(d, k, v), f) == SumValues(d, f) + f(v) - match Get(d, k) case None => 0 case Some(u) => f(u)
  {
    if d != [] && d[0].0 != k {
      PutSumValues(d[1..], k, v, f);
    }
  }

  lemma {:induction false} PutSumValuesReal<K(!new), V>(d: Dict<K, V>, k: K, v: V, f: V -> real)
    ensures SumValuesReal(Put(d, k, v), f) == SumValuesReal(d, f) + f(v) - match Get(d, k) case None => 0.0 case Some(u) => f(u)
  {
    if d != [] && d[0].0 != k {
      PutSumValuesReal(d[1..], k, v, f);
    }
  }

  /** Overwriting the value `u` of a present key replaces its share of the sum. */
  lemma {:induction false} PutSumReplacing<K(!new), V>(d: Dict<K, V>, k: K, u: V, v: V, f: V -> real)
    requires Get(d, k) == Some(u)
    ensures SumValuesReal(Put(d, k, v), f) == SumValuesReal(d, f) - f(u) + f(v)
  {
    if d[0].0 != k {
      PutSumReplacing(d[1..], k, u, v, f);
    }
  }

  /** Writing a new key adds its value's share to the sum. */
  lemma {:induction false} PutSumAdding<K(!new), V>(d: Dict<K, V>, k: K, v: V, f: V -> real)
    requires Get(d, k).None?
    ensures SumValuesReal(Put(d, k, v), f) == SumValuesReal(d, f) + f(v)
  {
    if d != [] {
      PutSumAdding(d[1..], k, v, f);
    }
  }

  /** Every value satisfies `p`. */
  predicate AllValues<K, V>(d: Dict<K, V>, p: V -> bool) {
    forall i :: 0 <= i < |d| ==> p(d[i].1)
  }

  /** Writing a value that satisfies `p` keeps every value satisfying it. */
  lemma {:induction false} PutAllValues<K(!new), V>(d: Dict<K, V>, k: K, v: V, p: V -> bool)
    requires AllValues(d, p) && p(v)
    ensures AllValues(Put(d, k, v), p)
  {
    if d != [] && d[0].0 != k {
      PutAllValues(d[1..], k, v, p);
    }
  }

  /** The lists held as values, put end to end in key order. */
  function Flatten<K, T>(d: Dict<K, seq<T>>): seq<T> {
    if d == [] then [] else d[0].1 + Flatten(d[1..])
  }

  lemma {:induction false} FlattenAppend<K, T>(a: Dict<K, seq<T>>, b: Dict<K, seq<T>>)
    ensures Flatten(a + b) == Flatten(a) + Flatten(b)
  {
    if a == [] {
      assert a + b == b;
    } else {
      assert (a + b)[1..] == a[1..] + b;
      FlattenAppend(a[1..], b);
    }
  }

  /** The list under `k`, empty when there is none. */
  function Held<K(==), T>(d: Dict<K, seq<T>>, k: K): seq<T> {
    if d == [] then [] else if d[0].0 == k then d[0].1 else Held(d[1..], k)
  }

  lemma {:induction false} HeldIsGet<K(!new), T>(d: Dict<K, seq<T>>, k: K)
    ensures Held(d, k) == match Get(d, k) case None => [] case Some(u) => u
  {
    if d != [] && d[0].0 != k {
      HeldIsGet(d[1..], k);
    }
  }

  /** Replacing the list under `k` by `v` replaces its elements by those of
      `v`, counted element by element. */
  lemma {:induction false} PutFlatten<K(!new), T>(d: Dict<K, seq<T>>, k: K, v: seq<T>, x: T)
    ensures multiset(Flatten(Put(d, k, v)))[x] + multiset(Held(d, k))[x] == multiset(Flatten(d))[x] + multiset(v)[x]
  {
    if d == [] {
      assert Put(d, k, v) == [(k, v)];
      assert Flatten(Put(d, k, v)) == v;
    } else if d[0].0 == k {
      assert multiset(Flatten(Put(d, k, v))) == multiset(v) + multiset(Flatten(d[1..])) by {
        assert Put(d, k, v) == [(k, v)] + d[1..];
        assert Flatten(Put(d, k, v)) == v + Flatten(d[1..]);
      }
      assert multiset(Flatten(d)) == multiset(d[0].1) + multiset(Flatten(d[1..]));
    } else {
      var rest := Put(d[1..], k, v);
      PutFlatten(d[1..], k, v, x);
      assert multiset(Flatten(Put(d, k, v))) == multiset(d[0].1) + multiset(Flatten(rest)) by {
        assert Put(d, k, v) == [d[0]] + rest;
        assert Flatten(Put(d, k, v)) == d[0].1 + Flatten(rest);
      }
      assert multiset(Flatten(d)) == multiset(d[0].1) + multiset(Flatten(d[1..]));
      assert Held(d, k) == Held(d[1..], k);
    }
  }

  /** A key is present exactly when looking it up finds a value. */
  lemma KeysGet<K, V>(d: Dict<K, V>, k: K)
    ensures k in Keys(d) <==> Get(d, k).Some?
  {
    if k in Keys(d) {
      var i :| 0 <= i < |d| && Keys(d)[i] == k;
      assert d[i].0 == k;
    }
  }
}
