/** The demand repository: the advanced filter and the queries built on it,
    grouping by material, sorting by due date, totals, aggregation over a
    date window and the state update. */
module BesoinsRepository {
  import opened Wrappers
  import Text
  import Dates
  import Seqs
  import Sorting
  import Dicts
  import Besoins
  import Repository

  type Besoin = Besoins.Besoin
  type Etat = Besoins.Etat

  /** The keyword arguments of `filter_besoins_advanced`; `None` switches a test off. */
  datatype Criteria = Criteria(
    etat: Option<Etat>,
    codeMp: Option<string>,
    nomMatiere: Option<string>,
    dateDebut: Option<Dates.DateTime>,
    dateFin: Option<Dates.DateTime>,
    quantiteMin: Option<real>,
    quantiteMax: Option<real>,
    lot: Option<string>)

  const NoCriteria: Criteria := Criteria(None, None, None, None, None, None, None, None)

  /** Every criterion that is given holds: exact state, code and lot,
      case-insensitive substring on the material name, inclusive date and
      quantity bounds. */
  predicate Satisfies(b: Besoin, c: Criteria) {
    && (c.etat.None? || b.etat == c.etat.value)
    && (c.codeMp.None? || b.matiere.codeMp == c.codeMp.value)
    && (c.nomMatiere.None? || Text.ContainsIgnoreCase(c.nomMatiere.value, b.matiere.nom))
    && (c.dateDebut.None? || b.echeance >= c.dateDebut.value)
    && (c.dateFin.None? || b.echeance <= c.dateFin.value)
    && (c.quantiteMin.None? || b.quantite >= c.quantiteMin.value)
    && (c.quantiteMax.None? || b.quantite <= c.quantiteMax.value)
    && (c.lot.None? || b.lot == c.lot.value)
  }

  function SatisfiesAll(c: Criteria): Besoin -> bool {
    (b: Besoin) => Satisfies(b, c)
  }

  /** `filter_besoins_advanced` over the stored besoins `data`. */
  function FilterBesoinsAdvanced(data: seq<Besoin>, c: Criteria): (r: seq<Besoin>)
    ensures forall b :: b in r <==> b in data && Satisfies(b, c)
    ensures Seqs.IsSubsequence(r, data)
  {
    Seqs.FilterIsSubsequence(data, SatisfiesAll(c));
    Seqs.Filter(data, SatisfiesAll(c))
  }

  /** `get_besoins_by_etat` */
  function BesoinsByEtat(data: seq<Besoin>, e: Etat): (r: seq<Besoin>)
    ensures forall b :: b in r <==> b in data && b.etat == e
    ensures Seqs.IsSubsequence(r, data)
  {
    FilterBesoinsAdvanced(data, NoCriteria.(etat := Some(e)))
  }

  function DueBy(limite: Dates.DateTime): Besoin -> bool {
    (b: Besoin) => b.echeance <= limite
  }

  /** `get_besoins_actuels_by_horizon`: open besoins due at the latest
      `horizon` days after `dateInitiale`; there is no lower bound, so
      overdue besoins are kept. */
  function ActuelsByHorizon(data: seq<Besoin>, horizon: int, dateInitiale: Dates.DateTime): (r: seq<Besoin>)
    ensures forall b :: b in r <==>
      b in data && b.etat == Besoins.Inconnu && b.echeance <= dateInitiale + horizon * Dates.SecondsPerDay
    ensures Seqs.IsSubsequence(r, data)
  {
    var open := BesoinsByEtat(data, Besoins.Inconnu);
    Seqs.FilterIsSubsequence(open, DueBy(Dates.AddDays(dateInitiale, horizon)));
    Seqs.SubsequenceTrans(Seqs.Filter(open, DueBy(Dates.AddDays(dateInitiale, horizon))), open, data);
    Seqs.Filter(open, DueBy(Dates.AddDays(dateInitiale, horizon)))
  }

  // ---------------------------------------------------------------------
  // Grouping by material

  type Groups = Dicts.Dict<string, seq<Besoin>>

  function OfCode(k: string): Besoin -> bool {
    (b: Besoin) => b.matiere.codeMp == k
  }

  predicate HasCode(s: seq<Besoin>, k: string) {
    exists i :: 0 <= i < |s| && s[i].matiere.codeMp == k
  }

  /** One iteration of the grouping loop: `b` is appended to its code's group,
      created empty on first use. */
  function AddToGroup(d: Groups, b: Besoin): Groups {
    var k := b.matiere.codeMp;
    Dicts.Put(d, k, (match Dicts.Get(d, k) case None => [] case Some(g) => g) + [b])
  }

  /** The dictionary the grouping loop has built after visiting `s`. */
  function Grouped(s: seq<Besoin>): Groups {
    if s == [] then [] else AddToGroup(Grouped(s[..|s| - 1]), s[|s| - 1])
  }

  /** Total number of besoins over all groups. */
  function GroupSizes(d: Groups): nat {
    if d == [] then 0 else |d[0].1| + GroupSizes(d[1..])
  }

  /** `group_besoins_by_matiere` */
  method GroupBesoinsByMatiere(besoins: seq<Besoin>) returns (groups: Groups)
    ensures groups == Grouped(besoins)
    ensures Dicts.UniqueKeys(groups)
    ensures forall k :: Dicts.Get(groups, k) == GroupOf(besoins, k)
    ensures GroupSizes(groups) == |besoins|
    ensures multiset(Dicts.Flatten(groups)) == multiset(besoins)
  {
    groups := [];
    for i := 0 to |besoins|
      invariant groups == Grouped(besoins[..i])
    {
      GroupedSnoc(besoins, i);
      GroupStep(groups, besoins[i]);
      var k := besoins[i].matiere.codeMp;
      if Dicts.Get(groups, k).None? {
        groups := Dicts.Put(groups, k, []);
      }
      groups := Dicts.Put(groups, k, Dicts.Get(groups, k).value + [besoins[i]]);
    }
    assert besoins[..|besoins|] == besoins;
    GroupedUnique(besoins);
    forall k ensures Dicts.Get(groups, k) == GroupOf(besoins, k) {
      GroupedGet(besoins, k);
    }
    GroupedSizes(besoins);
    GroupedFlatten(besoins);
  }

  /** The group `k` should receive: the besoins with that code in input order,
      or no entry at all when there are none. */
  function GroupOf(s: seq<Besoin>, k: string): Option<seq<Besoin>> {
    if HasCode(s, k) then Some(Seqs.Filter(s, OfCode(k))) else None
  }

  /** Creating the empty group on first use, then appending, is `AddToGroup`. */
  lemma GroupStep(d: Groups, b: Besoin)
    ensures var k := b.matiere.codeMp;
            var d1 := if Dicts.Get(d, k).None? then Dicts.Put(d, k, []) else d;
            Dicts.Get(d1, k).Some? && Dicts.Put(d1, k, Dicts.Get(d1, k).value + [b]) == AddToGroup(d, b)
  {
    var k := b.matiere.codeMp;
    if Dicts.Get(d, k).None? {
      var d1 := Dicts.Put(d, k, []);
      assert Dicts.Get(d1, k) == Some([]);
      assert Dicts.Get(d1, k).value + [b] == [b];
      Dicts.PutTwice(d, k, [], [b]);
      assert AddToGroup(d, b) == Dicts.Put(d, k, [b]);
    } else {
      assert AddToGroup(d, b) == Dicts.Put(d, k, Dicts.Get(d, k).value + [b]);
    }
  }

  lemma GroupedSnoc(s: seq<Besoin>, i: nat)
    requires i < |s|
    ensures Grouped(s[..i + 1]) == AddToGroup(Grouped(s[..i]), s[i])
  {
    assert s[..i + 1][..i] == s[..i];
  }

  lemma {:induction false} GroupedUnique(s: seq<Besoin>)
    ensures Dicts.UniqueKeys(Grouped(s))
    decreases |s|
  {
    if s != [] {
      GroupedUnique(s[..|s| - 1]);
    }
  }

  lemma HasCodeSnoc(s: seq<Besoin>, b: Besoin, k: string)
    ensures HasCode(s + [b], k) == (HasCode(s, k) || b.matiere.codeMp == k)
  {
    if HasCode(s + [b], k) {
      var i :| 0 <= i < |s + [b]| && (s + [b])[i].matiere.codeMp == k;
      if i < |s| {
        assert s[i] == (s + [b])[i];
      }
    }
    if HasCode(s, k) {
      var i :| 0 <= i < |s| && s[i].matiere.codeMp == k;
      assert (s + [b])[i] == s[i];
    }
    if b.matiere.codeMp == k {
      assert (s + [b])[|s|] == b;
    }
  }

  /** Each code's group holds exactly the besoins with that code, in input order. */
  lemma {:induction false} GroupedGet(s: seq<Besoin>, k: string)
    ensures Dicts.Get(Grouped(s), k) == GroupOf(s, k)
    decreases |s|
  {
    if s != [] {
      GroupedGet(s[..|s| - 1], k);
      GroupOfLast(s, k);
      AddToGroupGet(Grouped(s[..|s| - 1]), s[|s| - 1], k);
    }
  }

  /** Appending a besoin appends it to its own code's group only. */
  lemma AddToGroupGet(d: Groups, b: Besoin, k: string)
    ensures Dicts.Get(AddToGroup(d, b), k)
         == if b.matiere.codeMp == k then Some((match Dicts.Get(d, k) case None => [] case Some(g) => g) + [b])
            else Dicts.Get(d, k)
  {
  }

  /** The group a list should give, from that of all but its last besoin. */
  lemma GroupOfLast(s: seq<Besoin>, k: string)
    requires s != []
    ensures var init, b := s[..|s| - 1], s[|s| - 1];
            GroupOf(s, k) == if b.matiere.codeMp == k then Some((match GroupOf(init, k) case None => [] case Some(g) => g) + [b])
                             else GroupOf(init, k)
  {
    var init, b := s[..|s| - 1], s[|s| - 1];
    assert s == init + [b];
    Seqs.FilterSnoc(init, b, OfCode(k));
    HasCodeSnoc(init, b, k);
    if !HasCode(init, k) {
      NoCodeEmpty(init, k);
    }
  }

  lemma NoCodeEmpty(s: seq<Besoin>, k: string)
    requires !HasCode(s, k)
    ensures Seqs.Filter(s, OfCode(k)) == []
  {
  }

  /** Writing `v` under `k` replaces the size of the old group by `|v|`. */
  lemma {:induction false} PutSize(d: Groups, k: string, v: seq<Besoin>)
    ensures GroupSizes(Dicts.Put(d, k, v)) ==
      GroupSizes(d) + |v| - match Dicts.Get(d, k) case None => 0 case Some(g) => |g|
  {
    if d != [] && d[0].0 != k {
      PutSize(d[1..], k, v);
    }
  }

  /** No besoin is lost or counted twice. */
  lemma {:induction false} GroupedSizes(s: seq<Besoin>)
    ensures GroupSizes(Grouped(s)) == |s|
    decreases |s|
  {
    if s != [] {
      var d, b := Grouped(s[..|s| - 1]), s[|s| - 1];
      GroupedSizes(s[..|s| - 1]);
      var k := b.matiere.codeMp;
      PutSize(d, k, (match Dicts.Get(d, k) case None => [] case Some(g) => g) + [b]);
    }
  }

  /** The groups put end to end hold exactly the input besoins, each as
      many times as it occurs in the input. */
  lemma GroupedFlatten(s: seq<Besoin>)
    ensures multiset(Dicts.Flatten(Grouped(s))) == multiset(s)
  {
    forall x ensures multiset(Dicts.Flatten(Grouped(s)))[x] == multiset(s)[x] {
      GroupedFlattenCount(s, x);
    }
  }

  lemma {:induction false} GroupedFlattenCount(s: seq<Besoin>, x: Besoin)
    ensures multiset(Dicts.Flatten(Grouped(s)))[x] == multiset(s)[x]
    decreases |s|
  {
    if s != [] {
      GroupedFlattenCount(s[..|s| - 1], x);
      AddToGroupFlatten(Grouped(s[..|s| - 1]), s[|s| - 1], x);
      Seqs.MultisetLast(s, x);
    }
  }

  /** Appending `b` to its group adds one occurrence of `b`. */
  lemma AddToGroupFlatten(d: Groups, b: Besoin, x: Besoin)
    ensures multiset(Dicts.Flatten(AddToGroup(d, b)))[x] == multiset(Dicts.Flatten(d))[x] + if x == b then 1 else 0
  {
    var k := b.matiere.codeMp;
    var g := Dicts.Held(d, k);
    Dicts.HeldIsGet(d, k);
    Dicts.PutFlatten(d, k, g + [b], x);
    assert multiset(g + [b])[x] == multiset(g)[x] + multiset{b}[x];
  }

  // ---------------------------------------------------------------------
  // Sorting and totals

  function EcheanceOf(b: Besoin): int {
    b.echeance
  }

  /** `sort_besoins_by_echeance`: Python's stable `sorted` by due date. */
  function SortBesoinsByEcheance(besoins: seq<Besoin>, reverse: bool): (r: seq<Besoin>)
    ensures multiset(r) == multiset(besoins)
    ensures Sorting.Sorted(r, EcheanceOf, reverse)
  {
    Sorting.SortBySorted(besoins, EcheanceOf, reverse);
    Sorting.SortBy(besoins, EcheanceOf, reverse)
  }

  /** Besoins due at the same instant keep their input order, in both directions. */
  lemma SortBesoinsByEcheanceStable(besoins: seq<Besoin>, reverse: bool, t: int)
    ensures Seqs.Filter(SortBesoinsByEcheance(besoins, reverse), Sorting.KeyIs(EcheanceOf, t))
         == Seqs.Filter(besoins, Sorting.KeyIs(EcheanceOf, t))
  {
    Sorting.SortByStable(besoins, EcheanceOf, reverse, t);
  }

  function QuantiteOf(b: Besoin): real {
    b.quantite
  }

  /** `calculate_total_quantite` */
  function CalculateTotalQuantite(besoins: seq<Besoin>): (t: real)
    ensures besoins == [] ==> t == 0.0
  {
    Seqs.Sum(besoins, QuantiteOf)
  }

  /** The total is at least 0 when the quantities are, as the model's
      validation demands of every besoin. */
  lemma TotalQuantiteNonNegative(besoins: seq<Besoin>)
    requires forall b :: b in besoins ==> b.quantite >= 0.0
    ensures CalculateTotalQuantite(besoins) >= 0.0
  {
    Seqs.SumNonNegative(besoins, QuantiteOf);
  }

  /** The total of two lists put together is the sum of their totals. */
  lemma TotalQuantiteAppend(a: seq<Besoin>, b: seq<Besoin>)
    ensures CalculateTotalQuantite(a + b) == CalculateTotalQuantite(a) + CalculateTotalQuantite(b)
  {
    Seqs.SumAppend(a, b, QuantiteOf);
  }

  /** Sorting does not change the total. */
  lemma TotalQuantiteAfterSort(besoins: seq<Besoin>, reverse: bool)
    ensures CalculateTotalQuantite(SortBesoinsByEcheance(besoins, reverse)) == CalculateTotalQuantite(besoins)
  {
    Seqs.SumPermutation(SortBesoinsByEcheance(besoins, reverse), besoins, QuantiteOf);
  }

  // ---------------------------------------------------------------------
  // Aggregation over a date window

  /** Two besoins are merged when material, state and lot agree. */
  predicate SameKind(a: Besoin, b: Besoin) {
    a.matiere == b.matiere && a.etat == b.etat && a.lot == b.lot
  }

  /** The `next(...)` search: the first aggregated entry of the same kind. */
  function FindSimilar(agg: seq<Besoin>, b: Besoin): (r: Option<nat>)
    ensures r.Some? ==> r.value < |agg| && SameKind(agg[r.value], b) &&
                        forall i :: 0 <= i < r.value ==> !SameKind(agg[i], b)
    ensures r.None? <==> forall i :: 0 <= i < |agg| ==> !SameKind(agg[i], b)
  {
    if agg == [] then None
    else if SameKind(agg[0], b) then Some(0)
    else match FindSimilar(agg[1..], b)
      case None => None
      case Some(j) => Some(j + 1)
  }

  /** One iteration of the aggregation loop. */
  function Merge(agg: seq<Besoin>, b: Besoin): seq<Besoin> {
    match FindSimilar(agg, b)
    case Some(j) => agg[j := agg[j].(quantite := agg[j].quantite + b.quantite)]
    case None => agg + [b]
  }

  /** The aggregated list after visiting `s`. */
  function Aggregated(s: seq<Besoin>): seq<Besoin> {
    if s == [] then [] else Merge(Aggregated(s[..|s| - 1]), s[|s| - 1])
  }

  /** The window `[dateDebut, dateDebut + nbJours]`, both ends included. */
  function Window(nbJours: int, dateDebut: Dates.DateTime): Criteria {
    NoCriteria.(dateDebut := Some(dateDebut), dateFin := Some(Dates.AddDays(dateDebut, nbJours)))
  }

  /** `get_besoins_aggregated_by_timelapse`, with the stored besoins left as
      they are: the sums go into fresh entries. */
  method AggregatedByTimelapse(store: Repository.Store<Besoin>, nbJours: int, dateDebut: Dates.DateTime)
    returns (aggregated: seq<Besoin>)
    ensures aggregated == Aggregated(FilterBesoinsAdvanced(store.data, Window(nbJours, dateDebut)))
    ensures forall i, j :: 0 <= i < j < |aggregated| ==> !SameKind(aggregated[i], aggregated[j])
    ensures CalculateTotalQuantite(aggregated)
         == CalculateTotalQuantite(FilterBesoinsAdvanced(store.data, Window(nbJours, dateDebut)))
  {
    var filtered := FilterBesoinsAdvanced(store.data, Window(nbJours, dateDebut));
    aggregated := [];
    for i := 0 to |filtered|
      invariant aggregated == Aggregated(filtered[..i])
    {
      AggregatedSnoc(filtered, i);
      var b := filtered[i];
      var j := SearchSimilar(aggregated, b);
      MergeAt(aggregated, b, j);
      if j < |aggregated| {
        aggregated := aggregated[j := aggregated[j].(quantite := aggregated[j].quantite + b.quantite)];
      } else {
        aggregated := aggregated + [b];
      }
    }
    assert filtered[..|filtered|] == filtered;
    AggregatedDistinct(filtered);
    AggregatedTotal(filtered);
  }

  /** The `next(...)` generator scan: the index of the first entry of the
      same kind, or `|agg|` when there is none. */
  method SearchSimilar(agg: seq<Besoin>, b: Besoin) returns (j: nat)
    ensures j <= |agg| && forall m :: 0 <= m < j ==> !SameKind(agg[m], b)
    ensures j < |agg| ==> SameKind(agg[j], b)
  {
    j := 0;
    while j < |agg| && !SameKind(agg[j], b)
      invariant j <= |agg|
      invariant forall m :: 0 <= m < j ==> !SameKind(agg[m], b)
    {
      j := j + 1;
    }
  }

  lemma AggregatedSnoc(s: seq<Besoin>, i: nat)
    requires i < |s|
    ensures Aggregated(s[..i + 1]) == Merge(Aggregated(s[..i]), s[i])
  {
    assert s[..i + 1][..i] == s[..i];
  }

  lemma AggregatedAppend(s: seq<Besoin>, x: Besoin)
    ensures Aggregated(s + [x]) == Merge(Aggregated(s), x)
  {
    assert (s + [x])[..|s|] == s;
  }

  /** The linear search of the loop finds what `FindSimilar` finds. */
  lemma MergeAt(agg: seq<Besoin>, b: Besoin, j: nat)
    requires j <= |agg| && forall m :: 0 <= m < j ==> !SameKind(agg[m], b)
    requires j < |agg| ==> SameKind(agg[j], b)
    ensures j < |agg| ==> Merge(agg, b) == agg[j := agg[j].(quantite := agg[j].quantite + b.quantite)]
    ensures j == |agg| ==> Merge(agg, b) == agg + [b]
  {
    var r := FindSimilar(agg, b);
    if j < |agg| {
      assert r.Some? && r.value == j;
    }
  }

  /** No two aggregated entries share material, state and lot. */
  lemma {:induction false} AggregatedDistinct(s: seq<Besoin>)
    ensures forall i, j :: 0 <= i < j < |Aggregated(s)| ==> !SameKind(Aggregated(s)[i], Aggregated(s)[j])
    decreases |s|
  {
    if s != [] {
      AggregatedDistinct(s[..|s| - 1]);
    }
  }

  /** Aggregation preserves the total quantity. */
  lemma {:induction false} AggregatedTotal(s: seq<Besoin>)
    ensures CalculateTotalQuantite(Aggregated(s)) == CalculateTotalQuantite(s)
    decreases |s|
  {
    if s != [] {
      AggregatedTotal(s[..|s| - 1]);
      Seqs.SumSnoc(s, QuantiteOf);
      MergeTotal(Aggregated(s[..|s| - 1]), s[|s| - 1]);
    }
  }

  /** One merge adds the besoin's quantity to the total. */
  lemma MergeTotal(agg: seq<Besoin>, b: Besoin)
    ensures CalculateTotalQuantite(Merge(agg, b)) == CalculateTotalQuantite(agg) + b.quantite
  {
    match FindSimilar(agg, b)
    case Some(j) =>
      Seqs.SumUpdate(agg, j, agg[j].(quantite := agg[j].quantite + b.quantite), QuantiteOf);
    case None =>
      Seqs.SumAppend(agg, [b], QuantiteOf);
  }

  /** Every besoin of the window is represented by an entry of its kind. */
  lemma {:induction false} AggregatedCovers(s: seq<Besoin>, x: Besoin)
    requires x in s
    ensures exists i :: 0 <= i < |Aggregated(s)| && SameKind(Aggregated(s)[i], x)
    decreases |s|
  {
    var init, b := s[..|s| - 1], s[|s| - 1];
    assert s == init + [b];
    var agg := Aggregated(init);
    if x in init {
      AggregatedCovers(init, x);
      var i :| 0 <= i < |agg| && SameKind(agg[i], x);
      assert SameKind(Aggregated(s)[i], x);
    } else {
      assert x == b;
      match FindSimilar(agg, b)
      case Some(j) =>
        assert SameKind(Aggregated(s)[j], x);
      case None =>
        assert SameKind(Aggregated(s)[|agg|], x);
    }
  }

  /** What the loop does as written: the entries it merges into are the stored
      besoins themselves, so each sum is also written into the repository.
      `heads[i]` is the position in `data` of the stored besoin behind `agg[i]`,
      and `stored` is the repository content after the first `n` besoins. */
  datatype Trace = Trace(agg: seq<Besoin>, heads: seq<nat>, stored: seq<Besoin>)

  function WrittenTrace(data: seq<Besoin>, keep: Besoin -> bool, n: nat): (t: Trace)
    requires n <= |data|
    ensures |t.heads| == |t.agg| && |t.stored| == |data|
    ensures forall i :: 0 <= i < |t.heads| ==> t.heads[i] < n
  {
    if n == 0 then Trace([], [], data)
    else TraceStep(WrittenTrace(data, keep, n - 1), data[n - 1], n - 1, keep)
  }

  /** One iteration of the loop as written, visiting the stored besoin at
      position `pos`: the returned list is merged as intended, but a merge
      also writes the sum into the stored besoin behind the entry. */
  function TraceStep(t: Trace, b: Besoin, pos: nat, keep: Besoin -> bool): (t': Trace)
    requires |t.heads| == |t.agg| && forall i :: 0 <= i < |t.heads| ==> t.heads[i] < |t.stored|
    requires pos < |t.stored|
    ensures |t'.heads| == |t'.agg| && |t'.stored| == |t.stored|
    ensures forall i :: 0 <= i < |t'.heads| ==> t'.heads[i] == pos || (i < |t.heads| && t'.heads[i] == t.heads[i])
    ensures t'.agg == if keep(b) then Merge(t.agg, b) else t.agg
  {
    if !keep(b) then t
    else match FindSimilar(t.agg, b)
      case None => Trace(t.agg + [b], t.heads + [pos], t.stored)
      case Some(j) =>
        var merged := t.agg[j].(quantite := t.agg[j].quantite + b.quantite);
        Trace(t.agg[j := merged], t.heads, t.stored[t.heads[j] := merged])
  }

  /** As written, the returned list is the aggregation of the window. */
  lemma {:induction false} WrittenTraceAggregates(data: seq<Besoin>, keep: Besoin -> bool, n: nat)
    requires n <= |data|
    ensures WrittenTrace(data, keep, n).agg == Aggregated(Seqs.Filter(data[..n], keep))
  {
    if n > 0 {
      WrittenTraceAggregates(data, keep, n - 1);
      WrittenTraceStep(data, keep, n);
      AggregatedFilterStep(data, keep, n);
    }
  }

  /** The aggregation of a window one besoin longer. */
  lemma AggregatedFilterStep(data: seq<Besoin>, keep: Besoin -> bool, n: nat)
    requires 0 < n <= |data|
    ensures Aggregated(Seqs.Filter(data[..n], keep)) ==
      if keep(data[n - 1]) then Merge(Aggregated(Seqs.Filter(data[..n - 1], keep)), data[n - 1])
      else Aggregated(Seqs.Filter(data[..n - 1], keep))
  {
    Seqs.FilterPrefixSnoc(data, n, keep);
    if keep(data[n - 1]) {
      AggregatedAppend(Seqs.Filter(data[..n - 1], keep), data[n - 1]);
    }
  }

  lemma WrittenTraceStep(data: seq<Besoin>, keep: Besoin -> bool, n: nat)
    requires 0 < n <= |data|
    ensures WrittenTrace(data, keep, n).agg ==
      if keep(data[n - 1]) then Merge(WrittenTrace(data, keep, n - 1).agg, data[n - 1])
      else WrittenTrace(data, keep, n - 1).agg
  {
    assert WrittenTrace(data, keep, n) == TraceStep(WrittenTrace(data, keep, n - 1), data[n - 1], n - 1, keep);
  }

  function SampleBesoin(q: real, echeance: Dates.DateTime, id: string): Besoin {
    Besoins.Besoin(id, Besoins.Matiere("MP1", "Acier"), q, echeance, Besoins.Inconnu, "")
  }

  /** Two stored besoins of the same kind on consecutive days. */
  function SampleData(q: real): seq<Besoin> {
    [SampleBesoin(q, 0, "MP1_19700101"), SampleBesoin(2.0, 86400, "MP1_19700102")]
  }

  /** One call over the one-day window starting at 0: both besoins are kept,
      the second is merged into the first, and the first stored besoin now
      holds the sum. */
  lemma {:induction false} SampleCall(q: real)
    ensures WrittenTrace(SampleData(q), SatisfiesAll(Window(1, 0)), 2)
         == Trace([SampleBesoin(q + 2.0, 0, "MP1_19700101")], [0], SampleData(q + 2.0))
  {
    var data, keep := SampleData(q), SatisfiesAll(Window(1, 0));
    assert keep(data[0]) && keep(data[1]);
    assert WrittenTrace(data, keep, 0) == Trace([], [], data);
    assert WrittenTrace(data, keep, 1) == Trace([data[0]], [0], data);
    assert SameKind(data[0], data[1]);
    assert FindSimilar([data[0]], data[1]) == Some(0);
  }

  /** Two stored besoins of the same kind, 1.0 and 2.0, in a one-day window.
      As written, one call returns 3.0 but also leaves 3.0 in the first stored
      besoin, so a second identical call returns 5.0. The corrected
      aggregation returns 3.0 on every call. */
  lemma AggregationWritesBack()
    ensures var keep := SatisfiesAll(Window(1, 0));
            var first := WrittenTrace(SampleData(1.0), keep, 2);
            && first.agg == [SampleBesoin(3.0, 0, "MP1_19700101")]
            && first.stored == SampleData(3.0)
            && WrittenTrace(first.stored, keep, 2).agg == [SampleBesoin(5.0, 0, "MP1_19700101")]
            && Aggregated(FilterBesoinsAdvanced(SampleData(1.0), Window(1, 0))) == [SampleBesoin(3.0, 0, "MP1_19700101")]
  {
    SampleCall(1.0);
    SampleCall(3.0);
    SampleIntended();
  }

  /** The corrected aggregation of the two sample besoins is their sum. */
  lemma SampleIntended()
    ensures Aggregated(FilterBesoinsAdvanced(SampleData(1.0), Window(1, 0))) == [SampleBesoin(3.0, 0, "MP1_19700101")]
  {
    var data, keep := SampleData(1.0), SatisfiesAll(Window(1, 0));
    assert keep(data[0]) && keep(data[1]);
    Seqs.FilterAll(data, keep);
    assert data[..2] == data;
    WrittenTraceAggregates(data, keep, 2);
    SampleCall(1.0);
  }

  // ---------------------------------------------------------------------
  // State update

  /** `update_etat` */
  method UpdateEtat(store: Repository.Store<Besoin>, id: string, etat: Etat) returns (r: Option<Besoin>)
    modifies store
    ensures Repository.FirstIndex(old(store.data), store.idOf, id).None? ==> r.None? && store.data == old(store.data)
    ensures Repository.FirstIndex(old(store.data), store.idOf, id).Some? ==>
              var i := Repository.FirstIndex(old(store.data), store.idOf, id).value;
              r == Some(old(store.data)[i].(etat := etat)) &&
              store.data == old(store.data)[i := old(store.data)[i].(etat := etat)]
  {
    var found := store.GetById(id);
    if found.None? {
      return None;
    }
    var updated := found.value.(etat := etat);
    r := store.Update(id, updated);
  }
}
