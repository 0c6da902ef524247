/** The list-backed store every repository is built on (`BaseRepository`):
    the elements in insertion order, looked up by the value of their id
    field. Loading from and saving to a storage strategy is not modelled;
    the store starts from the list the strategy loaded. */
module Repository {
  import opened Wrappers
  import Seqs

  /** The position of the first element whose id is `id`. */
  function FirstIndex<T>(data: seq<T>, idOf: T -> string, id: string): (r: Option<nat>)
    ensures r.Some? ==> r.value < |data| && idOf(data[r.value]) == id
    ensures r.Some? ==> forall j :: 0 <= j < r.value ==> idOf(data[j]) != id
    ensures r.None? <==> forall j :: 0 <= j < |data| ==> idOf(data[j]) != id
  {
    if data == [] then None
    else if idOf(data[0]) == id then Some(0)
    else
      match FirstIndex(data[1..], idOf, id)
      case None => None
      case Some(k) => Some(k + 1)
  }

  /** Whether some element has id `id`. */
  predicate HasId<T>(data: seq<T>, idOf: T -> string, id: string) {
    FirstIndex(data, idOf, id).Some?
  }

  /** An item is refused when its id is truthy (not empty) and already stored. */
  predicate Clashes<T>(data: seq<T>, idOf: T -> string, item: T) {
    idOf(item) != "" && HasId(data, idOf, idOf(item))
  }

  /** No two elements share a truthy id. */
  predicate UniqueIds<T>(data: seq<T>, idOf: T -> string) {
    forall i, j :: 0 <= i < j < |data| && idOf(data[i]) != "" ==> idOf(data[i]) != idOf(data[j])
  }

  /** The store after the import loop has gone through `items`: each item is
      appended unless it clashes with what is stored at that point, items
      appended earlier in the same batch included. */
  function Imported<T>(data: seq<T>, items: seq<T>, idOf: T -> string): (r: seq<T>)
    ensures |data| <= |r| <= |data| + |items|
    ensures r[..|data|] == data
    decreases |items|
  {
    if items == [] then data
    else
      var next := if Clashes(data, idOf, items[0]) then data else data + [items[0]];
      var r := Imported(next, items[1..], idOf);
      assert r[..|data|] == r[..|next|][..|data|];
      r
  }

  /** One filter criterion `key=value`; a `None` value is ignored. */
  datatype Criterion<V> = Criterion(key: string, value: Option<V>)

  /** Whether `x` passes criterion `c`. `field(x, key)` is the attribute
      `key` of `x`, or `None` when `x` has no such attribute. */
  predicate Matches<T, V(==)>(x: T, field: (T, string) -> Option<V>, c: Criterion<V>) {
    c.value.None? || field(x, c.key) == Some(c.value.value)
  }

  predicate MatchesAll<T, V(==)>(x: T, field: (T, string) -> Option<V>, cs: seq<Criterion<V>>) {
    forall i :: 0 <= i < |cs| ==> Matches(x, field, cs[i])
  }

  /** Appending an id-free item or one whose id is new keeps the ids unique. */
  lemma AppendKeepsIdsUnique<T>(data: seq<T>, idOf: T -> string, item: T)
    requires UniqueIds(data, idOf)
    requires !Clashes(data, idOf, item)
    ensures UniqueIds(data + [item], idOf)
  {
  }

  /** The import loop never brings in a second element with a truthy id
      that is already stored. */
  lemma {:induction false} ImportedKeepsIdsUnique<T>(data: seq<T>, items: seq<T>, idOf: T -> string)
    requires UniqueIds(data, idOf)
    ensures UniqueIds(Imported(data, items, idOf), idOf)
    decreases |items|
  {
    if items != [] {
      if Clashes(data, idOf, items[0]) {
        ImportedKeepsIdsUnique(data, items[1..], idOf);
      } else {
        AppendKeepsIdsUnique(data, idOf, items[0]);
        ImportedKeepsIdsUnique(data + [items[0]], items[1..], idOf);
      }
    }
  }

  /** What is stored keeps its id after more elements are appended. */
  lemma HasIdAfterAppend<T>(data: seq<T>, more: seq<T>, idOf: T -> string, id: string)
    requires HasId(data, idOf, id)
    ensures HasId(data + more, idOf, id)
  {
    var k := FirstIndex(data, idOf, id).value;
    assert (data + more)[k] == data[k];
  }

  /** After the import, the truthy id of every item is stored: either the
      item was appended or an element with its id was already there. */
  lemma {:induction false} ImportedCoversIds<T>(data: seq<T>, items: seq<T>, idOf: T -> string, i: nat)
    requires i < |items| && idOf(items[i]) != ""
    ensures HasId(Imported(data, items, idOf), idOf, idOf(items[i]))
    decreases |items|
  {
    var next := if Clashes(data, idOf, items[0]) then data else data + [items[0]];
    var r := Imported(next, items[1..], idOf);
    assert r == Imported(data, items, idOf);
    if i == 0 {
      var id := idOf(items[0]);
      if !Clashes(data, idOf, items[0]) {
        assert next[|data|] == items[0];
      }
      assert HasId(next, idOf, id);
      assert r == next + r[|next|..];
      HasIdAfterAppend(next, r[|next|..], idOf, id);
    } else {
      assert items[1..][i - 1] == items[i];
      ImportedCoversIds(next, items[1..], idOf, i - 1);
    }
  }

  /** After the import, every item without an id has been appended. */
  lemma {:induction false} ImportedKeepsIdless<T>(data: seq<T>, items: seq<T>, idOf: T -> string, i: nat)
    requires i < |items| && idOf(items[i]) == ""
    ensures items[i] in Imported(data, items, idOf)
    decreases |items|
  {
    var next := if Clashes(data, idOf, items[0]) then data else data + [items[0]];
    var r := Imported(next, items[1..], idOf);
    assert r == Imported(data, items, idOf);
    if i == 0 {
      assert next == data + [items[0]];
      assert r[..|next|][|data|] == items[0];
    } else {
      assert items[1..][i - 1] == items[i];
      ImportedKeepsIdless(next, items[1..], idOf, i - 1);
    }
  }

  /** An in-memory repository: `data` is the stored list and `idOf` reads
      the id field of an element. */
  class Store<T(!new)> {
    var data: seq<T>
    const idOf: T -> string

    /** A repository over the list its storage strategy loaded. */
    constructor (idOf: T -> string, loaded: seq<T>)
      ensures this.idOf == idOf && data == loaded
    {
      this.idOf := idOf;
      data := loaded;
    }

    /** `get_all`: a shallow copy of the stored list. The elements are
        values here, so an element changed in place later (a besoin's etat,
        a stock's quantite, a shipment's products) does not show in a list
        fetched before; in the source it does. */
    method GetAll() returns (r: seq<T>)
      ensures r == data
    {
      r := data;
    }

    /** `get_by_id`: the first element whose id is `id`, or `None`. */
    method GetById(id: string) returns (r: Option<T>)
      ensures r.None? <==> !HasId(data, idOf, id)
      ensures r.Some? ==> r.value == data[FirstIndex(data, idOf, id).value]
      ensures r.Some? ==> idOf(r.value) == id
    {
      var i := 0;
      while i < |data|
        invariant 0 <= i <= |data|
        invariant forall j :: 0 <= j < i ==> idOf(data[j]) != id
      {
        if idOf(data[i]) == id {
          return Some(data[i]);
        }
        i := i + 1;
      }
      return None;
    }

    /** `exists`: whether some element has id `id`. */
    method Exists(id: string) returns (b: bool)
      ensures b <==> exists j :: 0 <= j < |data| && idOf(data[j]) == id
    {
      var found := GetById(id);
      b := found.Some?;
    }

    /** `count`: the number of stored elements. */
    method Count() returns (n: nat)
      ensures n == |data|
    {
      n := |data|;
    }

    /** `create`: refused when the item's truthy id is already stored;
        otherwise the item is appended at the end. */
    method Create(item: T) returns (r: Result<T>)
      modifies this
      ensures r.Err? <==> Clashes(old(data), idOf, item)
      ensures r.Err? ==> data == old(data)
      ensures r.Ok? ==> r.value == item && data == old(data) + [item]
      ensures UniqueIds(old(data), idOf) ==> UniqueIds(data, idOf)
    {
      var id := idOf(item);
      if id != "" {
        var existing := GetById(id);
        if existing.Some? {
          return Err("Un élément avec l'ID " + id + " existe déjà");
        }
      }
      if UniqueIds(data, idOf) {
        AppendKeepsIdsUnique(data, idOf, item);
      }
      data := data + [item];
      r := Ok(item);
    }

    /** `update`: the first element with id `id` is replaced by `item`;
        nothing changes when there is none. */
    method Update(id: string, item: T) returns (r: Option<T>)
      modifies this
      ensures FirstIndex(old(data), idOf, id).None? ==> r.None? && data == old(data)
      ensures FirstIndex(old(data), idOf, id).Some? ==>
                r == Some(item) && data == old(data)[FirstIndex(old(data), idOf, id).value := item]
    {
      var i := 0;
      while i < |data|
        invariant 0 <= i <= |data|
        invariant data == old(data)
        invariant forall j :: 0 <= j < i ==> idOf(data[j]) != id
      {
        if idOf(data[i]) == id {
          data := data[i := item];
          return Some(item);
        }
        i := i + 1;
      }
      return None;
    }

    /** `delete`: the first element with id `id` is removed; false and
        nothing changes when there is none. */
    method Delete(id: string) returns (deleted: bool)
      modifies this
      ensures deleted <==> FirstIndex(old(data), idOf, id).Some?
      ensures !deleted ==> data == old(data)
      ensures deleted ==>
                var k := FirstIndex(old(data), idOf, id).value;
                data == old(data)[..k] + old(data)[k + 1..]
    {
      var i := 0;
      while i < |data|
        invariant 0 <= i <= |data|
        invariant data == old(data)
        invariant forall j :: 0 <= j < i ==> idOf(data[j]) != id
      {
        if idOf(data[i]) == id {
          data := data[..i] + data[i + 1..];
          return true;
        }
        i := i + 1;
      }
      return false;
    }

    /** `flush`: the store is emptied. */
    method Flush()
      modifies this
      ensures data == []
    {
      data := [];
    }

    /** `filter(**kwargs)`: the criteria are applied one after the other,
        a `None` value being skipped; what is left is the stored elements
        that have every named attribute with the given value, in order. */
    method Filter<V(==)>(field: (T, string) -> Option<V>, criteria: seq<Criterion<V>>) returns (r: seq<T>)
      ensures r == Seqs.Filter(data, x => MatchesAll(x, field, criteria))
    {
      r := data;
      PassingNone(data, field, criteria);
      var k := 0;
      while k < |criteria|
        invariant 0 <= k <= |criteria|
        invariant r == Passing(data, field, criteria, k)
      {
        FilterStep(data, field, criteria, k);
        var c := criteria[k];
        if c.value.Some? {
          r := WithValue(r, field, c.key, c.value.value);
        }
        k := k + 1;
      }
      PassingAll(data, field, criteria);
    }
  }

  /** `hasattr(x, key) and getattr(x, key) == v` */
  predicate HasValue<T, V(==)>(x: T, field: (T, string) -> Option<V>, key: string, v: V) {
    field(x, key) == Some(v)
  }

  /** The elements the first `k` criteria let through. */
  function Passing<T(!new), V(==)>(data: seq<T>, field: (T, string) -> Option<V>, criteria: seq<Criterion<V>>, k: nat): seq<T>
    requires k <= |criteria|
  {
    Seqs.Filter(data, x => MatchesAll(x, field, criteria[..k]))
  }

  /** `[x for x in s if hasattr(x, key) and getattr(x, key) == v]` */
  function WithValue<T(!new), V(==)>(s: seq<T>, field: (T, string) -> Option<V>, key: string, v: V): seq<T> {
    Seqs.Filter(s, x => HasValue(x, field, key, v))
  }

  /** No criterion yet lets everything through. */
  lemma PassingNone<T(!new), V>(data: seq<T>, field: (T, string) -> Option<V>, criteria: seq<Criterion<V>>)
    ensures Passing(data, field, criteria, 0) == data
  {
    Seqs.FilterAll(data, x => MatchesAll(x, field, criteria[..0]));
  }

  /** Once every criterion is applied, what is left passes them all. */
  lemma PassingAll<T(!new), V>(data: seq<T>, field: (T, string) -> Option<V>, criteria: seq<Criterion<V>>)
    ensures Passing(data, field, criteria, |criteria|) == Seqs.Filter(data, x => MatchesAll(x, field, criteria))
  {
    assert criteria[..|criteria|] == criteria;
  }

  /** Applying criterion `k` to what the first `k` criteria left is the
      same as applying the first `k + 1` criteria at once. */
  lemma FilterStep<T(!new), V>(data: seq<T>, field: (T, string) -> Option<V>, criteria: seq<Criterion<V>>, k: nat)
    requires k < |criteria|
    ensures var c := criteria[k];
            Passing(data, field, criteria, k + 1) ==
              if c.value.None? then Passing(data, field, criteria, k)
              else WithValue(Passing(data, field, criteria, k), field, c.key, c.value.value)
  {
    var c := criteria[k];
    var p := x => MatchesAll(x, field, criteria[..k]);
    var pq := x => MatchesAll(x, field, criteria[..k + 1]);
    forall x ensures pq(x) == (p(x) && Matches(x, field, c)) {
      assert criteria[..k + 1] == criteria[..k] + [c];
      assert forall i :: 0 <= i < k ==> criteria[..k + 1][i] == criteria[..k][i];
    }
    if c.value.None? {
      forall x ensures pq(x) == p(x) { }
      Seqs.FilterSame(data, pq, p);
    } else {
      Seqs.FilterFilter(data, p, x => HasValue(x, field, c.key, c.value.value), pq);
    }
  }

  /** The import loop of `import_from_file`: each decoded item is appended
      unless its truthy id is already stored; returns how many were added
      and how many were ignored. */
  method ImportItems<T(!new)>(store: Store<T>, items: seq<T>) returns (added: nat, ignored: nat)
    modifies store
    ensures store.data == Imported(old(store.data), items, store.idOf)
    ensures added + ignored == |items|
    ensures |store.data| == |old(store.data)| + added
  {
    added, ignored := 0, 0;
    var k := 0;
    while k < |items|
      invariant 0 <= k <= |items|
      invariant Imported(store.data, items[k..], store.idOf) == Imported(old(store.data), items, store.idOf)
      invariant added + ignored == k
      invariant |store.data| == |old(store.data)| + added
    {
      var item := items[k];
      assert items[k..][1..] == items[k + 1..];
      var id := store.idOf(item);
      var skip := false;
      if id != "" {
        var existing := store.GetById(id);
        skip := existing.Some?;
      }
      if skip {
        ignored := ignored + 1;
      } else {
        store.data := store.data + [item];
        added := added + 1;
      }
      k := k + 1;
    }
    assert items[k..] == [];
  }
}
