/** The shipment repository: the product and date queries, transfer-number
    generation, creation, product removal, global statistics and the
    advanced filter. The repository's id field is `numero_transfert`. */
module RappatriementsRepository {
  import opened Wrappers
  import Text
  import Dates
  import Seqs
  import Dicts
  import Rappatriements
  import Repository

  type Rappatriement = Rappatriements.Rappatriement
  type Produit = Rappatriements.Produit

  // ---------------------------------------------------------------------
  // Queries

  /** Some product's code or designation contains `code`, ignoring case. */
  predicate HasMatiere(r: Rappatriement, code: string) {
    exists i :: 0 <= i < |r.produits| &&
      (Text.ContainsIgnoreCase(code, r.produits[i].codePrdt) ||
       Text.ContainsIgnoreCase(code, r.produits[i].designationPrdt))
  }

  function MatiereIn(code: string): Rappatriement -> bool {
    (r: Rappatriement) => HasMatiere(r, code)
  }

  /** `get_rappatriements_by_matiere`: the inner loop stops at the first
      matching product, so a shipment is listed once however many products
      match. */
  function ByMatiere(data: seq<Rappatriement>, code: string): (r: seq<Rappatriement>)
    ensures forall x :: x in r <==> x in data && HasMatiere(x, code)
    ensures forall x :: multiset(r)[x] <= multiset(data)[x]
    ensures Seqs.IsSubsequence(r, data)
  {
    Seqs.FilterIsSubsequence(data, MatiereIn(code));
    Seqs.Filter(data, MatiereIn(code))
  }

  /** Some product's code contains `code`, ignoring case. */
  predicate HasProduit(r: Rappatriement, code: string) {
    exists i :: 0 <= i < |r.produits| && Text.ContainsIgnoreCase(code, r.produits[i].codePrdt)
  }

  function ProduitIn(code: string): Rappatriement -> bool {
    (r: Rappatriement) => HasProduit(r, code)
  }

  /** `get_rappatriements_by_produit`: like the material query, but on the
      product code only. */
  function ByProduit(data: seq<Rappatriement>, code: string): (r: seq<Rappatriement>)
    ensures forall x :: x in r <==> x in data && HasProduit(x, code)
    ensures forall x :: multiset(r)[x] <= multiset(data)[x]
    ensures Seqs.IsSubsequence(r, data)
  {
    Seqs.FilterIsSubsequence(data, ProduitIn(code));
    Seqs.Filter(data, ProduitIn(code))
  }

  /** A shipment found by product code is also found by material code. */
  lemma ByProduitWithinByMatiere(data: seq<Rappatriement>, code: string)
    ensures forall x :: x in ByProduit(data, code) ==> x in ByMatiere(data, code)
  {
    forall x | x in ByProduit(data, code) ensures x in ByMatiere(data, code) {
      var i :| 0 <= i < |x.produits| && Text.ContainsIgnoreCase(code, x.produits[i].codePrdt);
      assert HasMatiere(x, code);
    }
  }

  function RequestedWithin(debut: Dates.DateTime, fin: Dates.DateTime): Rappatriement -> bool {
    (r: Rappatriement) => r.dateDemande.Some? && debut <= r.dateDemande.value <= fin
  }

  /** `get_rappatriements_by_date_range`: shipments without a request date
      are never listed; both bounds are inclusive. */
  function ByDateRange(data: seq<Rappatriement>, debut: Dates.DateTime, fin: Dates.DateTime): (r: seq<Rappatriement>)
    ensures forall x :: x in r <==> x in data && x.dateDemande.Some? && debut <= x.dateDemande.value <= fin
    ensures Seqs.IsSubsequence(r, data)
  {
    Seqs.FilterIsSubsequence(data, RequestedWithin(debut, fin));
    Seqs.Filter(data, RequestedWithin(debut, fin))
  }

  // ---------------------------------------------------------------------
  // Transfer numbers

  /** The number tried after `c` collisions: the timestamp itself, then the
      timestamp followed by `c` written on at least three digits. */
  function Candidate(timestamp: string, c: nat): string {
    if c == 0 then timestamp else timestamp + Text.PadZeros(Text.NatToString(c), 3)
  }

  /** Different collision counts give different numbers. */
  lemma CandidateInjective(timestamp: string, c1: nat, c2: nat)
    requires c1 != c2
    ensures Candidate(timestamp, c1) != Candidate(timestamp, c2)
  {
    if c1 != 0 && c2 != 0 {
      var a, b := Text.PadZeros(Text.NatToString(c1), 3), Text.PadZeros(Text.NatToString(c2), 3);
      if timestamp + a == timestamp + b {
        assert a == (timestamp + a)[|timestamp|..];
        assert b == (timestamp + b)[|timestamp|..];
        Text.PadZerosValue(Text.NatToString(c1), 3);
        Text.PadZerosValue(Text.NatToString(c2), 3);
        Text.NatToStringValue(c1);
        Text.NatToStringValue(c2);
      }
    }
  }

  /** The first `n` candidates are `n` different strings. */
  lemma {:induction false} CandidatesCount(timestamp: string, n: nat)
    ensures |set c | 0 <= c < n :: Candidate(timestamp, c)| == n
  {
    if n > 0 {
      CandidatesCount(timestamp, n - 1);
      var before := set c | 0 <= c < n - 1 :: Candidate(timestamp, c);
      var after := set c | 0 <= c < n :: Candidate(timestamp, c);
      var x := Candidate(timestamp, n - 1);
      assert after == before + {x};
      if x in before {
        var c :| 0 <= c < n - 1 && Candidate(timestamp, c) == x;
        CandidateInjective(timestamp, c, n - 1);
      }
      assert |before + {x}| == |before| + 1;
    }
  }

  /** At most as many candidates can collide as there are existing numbers. */
  lemma CollisionsBounded(timestamp: string, n: nat, existing: set<string>)
    requires forall c :: 0 <= c < n ==> Candidate(timestamp, c) in existing
    ensures n <= |existing|
  {
    CandidatesCount(timestamp, n);
    var tried := set c | 0 <= c < n :: Candidate(timestamp, c);
    assert tried <= existing;
    Seqs.SubsetCardinality(tried, existing);
  }

  /** `_generate_transfer_number`, with the clock reading passed in as
      `timestamp`: the first candidate that is not already a transfer number. */
  method GenerateTransferNumber(existing: seq<string>, timestamp: string) returns (numero: string)
    ensures numero !in existing
    ensures exists c: nat :: numero == Candidate(timestamp, c) &&
              forall c': nat :: c' < c ==> Candidate(timestamp, c') in existing
    ensures timestamp !in existing ==> numero == timestamp
  {
    var counter := 1;
    numero := timestamp;
    while numero in existing
      invariant counter >= 1 && numero == Candidate(timestamp, counter - 1)
      invariant forall c: nat :: c < counter - 1 ==> Candidate(timestamp, c) in existing
      decreases |set x | x in existing| - counter + 1
    {
      CollisionsBounded(timestamp, counter, set x | x in existing);
      numero := timestamp + Text.PadZeros(Text.NatToString(counter), 3);
      counter := counter + 1;
    }
  }

  function Numeros(data: seq<Rappatriement>): (ns: seq<string>)
    ensures |ns| == |data| && forall i :: 0 <= i < |data| ==> ns[i] == data[i].numeroTransfert
  {
    seq(|data|, i requires 0 <= i < |data| => data[i].numeroTransfert)
  }

  /** `create_rappatriement`: an empty transfer number is replaced by the
      first candidate not yet taken, so that creation always succeeds;
      a given number is kept and creation fails when it is already taken. */
  method CreateRappatriement(store: Repository.Store<Rappatriement>, rap: Rappatriement, timestamp: string)
    returns (r: Result<Rappatriement>)
    requires forall x :: store.idOf(x) == x.numeroTransfert
    modifies store
    ensures rap.numeroTransfert != "" ==>
              (r.Err? <==> rap.numeroTransfert in Numeros(old(store.data))) &&
              (r.Ok? ==> r.value == rap)
    ensures rap.numeroTransfert == "" ==>
              r.Ok? && r.value == rap.(numeroTransfert := r.value.numeroTransfert) &&
              r.value.numeroTransfert !in Numeros(old(store.data)) &&
              exists c: nat :: r.value.numeroTransfert == Candidate(timestamp, c) &&
                forall c': nat :: c' < c ==> Candidate(timestamp, c') in Numeros(old(store.data))
    ensures r.Err? ==> store.data == old(store.data)
    ensures r.Ok? ==> store.data == old(store.data) + [r.value]
  {
    var item := rap;
    if rap.numeroTransfert == "" {
      var all := store.GetAll();
      var numero := GenerateTransferNumber(Numeros(all), timestamp);
      item := rap.(numeroTransfert := numero);
    }
    r := store.Create(item);
    if !Repository.HasId(old(store.data), store.idOf, item.numeroTransfert) {
      assert item.numeroTransfert !in Numeros(old(store.data));
    } else {
      var j :| 0 <= j < |old(store.data)| && store.idOf(old(store.data)[j]) == item.numeroTransfert;
      assert Numeros(old(store.data))[j] == item.numeroTransfert;
    }
  }

  // ---------------------------------------------------------------------
  // Product removal

  function OtherCode(code: string): Produit -> bool {
    (p: Produit) => p.codePrdt != code
  }

  /** `retirer_produit_from_rappatriement`: every product whose code equals
      `code` goes, the others stay in order, and the shipment is written back. */
  method RetirerProduit(store: Repository.Store<Rappatriement>, numero: string, code: string)
    returns (r: Option<Rappatriement>)
    modifies store
    ensures Repository.FirstIndex(old(store.data), store.idOf, numero).None? ==> r.None? && store.data == old(store.data)
    ensures Repository.FirstIndex(old(store.data), store.idOf, numero).Some? ==>
              var i := Repository.FirstIndex(old(store.data), store.idOf, numero).value;
              var kept := old(store.data)[i].(produits := Seqs.Filter(old(store.data)[i].produits, OtherCode(code)));
              r == Some(kept) && store.data == old(store.data)[i := kept]
  {
    var found := store.GetById(numero);
    if found.None? {
      return None;
    }
    var updated := found.value.(produits := Seqs.Filter(found.value.produits, OtherCode(code)));
    r := store.Update(numero, updated);
  }

  /** The products left after removal: exactly those with another code, in
      their original order. */
  lemma RetirerProduitKeeps(ps: seq<Produit>, code: string)
    ensures forall p :: p in Seqs.Filter(ps, OtherCode(code)) <==> p in ps && p.codePrdt != code
    ensures Seqs.IsSubsequence(Seqs.Filter(ps, OtherCode(code)), ps)
    ensures forall p :: p in ps && p.codePrdt != code ==>
              multiset(Seqs.Filter(ps, OtherCode(code)))[p] == multiset(ps)[p]
  {
    Seqs.FilterIsSubsequence(ps, OtherCode(code));
  }

  // ---------------------------------------------------------------------
  // Statistics

  datatype EmballageStats = EmballageStats(count: nat, poids: real)
  datatype ResponsableStats = ResponsableStats(count: nat, poidsTotal: real)

  /** The dictionary `get_statistiques_globales` returns. */
  datatype Statistiques = Statistiques(
    totalRappatriements: nat,
    totalProduits: nat,
    poidsTotal: real,
    totalPalettes: int,
    totalContenants: int,
    typesEmballage: Dicts.Dict<string, EmballageStats>,
    responsables: Dicts.Dict<string, ResponsableStats>)

  function NbProduitsOf(r: Rappatriement): int { |r.produits| }
  function EmballageCount(e: EmballageStats): int { e.count }
  function EmballagePoids(e: EmballageStats): real { e.poids }
  function ResponsableCount(e: ResponsableStats): int { e.count }
  function ResponsablePoids(e: ResponsableStats): real { e.poidsTotal }

  /** All products of all shipments, shipment after shipment. */
  function AllProduits(data: seq<Rappatriement>): seq<Produit> {
    if data == [] then [] else AllProduits(data[..|data| - 1]) + data[|data| - 1].produits
  }

  /** The entry of a packaging type, zero until it is first created. */
  function EmballageEntry(d: Dicts.Dict<string, EmballageStats>, k: string): EmballageStats {
    match Dicts.Get(d, k) case None => EmballageStats(0, 0.0) case Some(e) => e
  }

  /** The entry after one more product of weight `w`. */
  function Counted(e: EmballageStats, w: real): EmballageStats {
    EmballageStats(e.count + 1, e.poids + w)
  }

  /** One step of the packaging loop: the product's type is counted and its
      weight added, the entry being created at zero on first use. */
  function AddEmballage(d: Dicts.Dict<string, EmballageStats>, p: Produit): Dicts.Dict<string, EmballageStats> {
    Dicts.Put(d, p.typeEmballage, Counted(EmballageEntry(d, p.typeEmballage), p.poidsNet))
  }

  /** The packaging dictionary after visiting `ps`. */
  function TypesEmballage(ps: seq<Produit>): Dicts.Dict<string, EmballageStats> {
    if ps == [] then [] else AddEmballage(TypesEmballage(ps[..|ps| - 1]), ps[|ps| - 1])
  }

  /** The entry of a responsible, zero until it is first created. */
  function ResponsableEntry(d: Dicts.Dict<string, ResponsableStats>, k: string): ResponsableStats {
    match Dicts.Get(d, k) case None => ResponsableStats(0, 0.0) case Some(e) => e
  }

  /** The entry after one more shipment of weight `w`. */
  function Tallied(e: ResponsableStats, w: real): ResponsableStats {
    ResponsableStats(e.count + 1, e.poidsTotal + w)
  }

  /** One step of the responsible loop. */
  function AddResponsable(d: Dicts.Dict<string, ResponsableStats>, r: Rappatriement): Dicts.Dict<string, ResponsableStats> {
    Dicts.Put(d, r.responsableDiffusion, Tallied(ResponsableEntry(d, r.responsableDiffusion), Rappatriements.PoidsTotal(r)))
  }

  /** The responsible dictionary after visiting `data`. */
  function Responsables(data: seq<Rappatriement>): Dicts.Dict<string, ResponsableStats> {
    if data == [] then [] else AddResponsable(Responsables(data[..|data| - 1]), data[|data| - 1])
  }

  /** `get_statistiques_globales`: zeros and empty dictionaries for an empty
      repository; otherwise the totals, the per-packaging-type and the
      per-responsible tallies, whose counts and weights add up to the totals. */
  method GetStatistiquesGlobales(data: seq<Rappatriement>) returns (stats: Statistiques)
    ensures data == [] ==> stats == Statistiques(0, 0, 0.0, 0, 0, [], [])
    ensures data != [] ==>
              && stats.totalRappatriements == |data|
              && stats.totalProduits == |AllProduits(data)|
              && stats.poidsTotal == Seqs.Sum(data, Rappatriements.PoidsTotal)
              && stats.totalPalettes == Seqs.SumInt(data, Rappatriements.NbPalettesTotal)
              && stats.totalContenants == Seqs.SumInt(data, Rappatriements.NbContenantsTotal)
              && stats.typesEmballage == TypesEmballage(AllProduits(data))
              && stats.responsables == Responsables(data)
    ensures Dicts.UniqueKeys(stats.typesEmballage) && Dicts.UniqueKeys(stats.responsables)
    ensures Dicts.SumValues(stats.typesEmballage, EmballageCount) == stats.totalProduits
    ensures Dicts.SumValuesReal(stats.typesEmballage, EmballagePoids) == stats.poidsTotal
    ensures Dicts.SumValues(stats.responsables, ResponsableCount) == stats.totalRappatriements
    ensures Dicts.SumValuesReal(stats.responsables, ResponsablePoids) == stats.poidsTotal
  {
    if data == [] {
      return Statistiques(0, 0, 0.0, 0, 0, [], []);
    }
    var totalProduits := Seqs.SumInt(data, NbProduitsOf);
    AllProduitsLength(data);
    var types := PackagingLoop(data);
    var responsables := ResponsableLoop(data);
    stats := Statistiques(|data|, totalProduits, Seqs.Sum(data, Rappatriements.PoidsTotal),
      Seqs.SumInt(data, Rappatriements.NbPalettesTotal), Seqs.SumInt(data, Rappatriements.NbContenantsTotal),
      types, responsables);
    TypesEmballageUnique(AllProduits(data));
    TypesEmballageCount(AllProduits(data));
    TypesEmballagePoids(AllProduits(data));
    AllProduitsPoids(data);
    ResponsablesTotals(data);
  }

  /** The packaging-type loop of `get_statistiques_globales`. */
  method PackagingLoop(data: seq<Rappatriement>) returns (types: Dicts.Dict<string, EmballageStats>)
    ensures types == TypesEmballage(AllProduits(data))
  {
    types := [];
    for i := 0 to |data|
      invariant types == TypesEmballage(AllProduits(data[..i]))
    {
      var ps := data[i].produits;
      ghost var prefix := AllProduits(data[..i]);
      assert prefix + ps[..0] == prefix;
      for j := 0 to |ps|
        invariant types == TypesEmballage(prefix + ps[..j])
      {
        TypesEmballageSnoc(prefix, ps, j);
        types := CountProduit(types, ps[j]);
      }
      assert ps[..|ps|] == ps;
      AllProduitsSnoc(data, i);
    }
    assert data[..|data|] == data;
  }

  /** The body of the packaging-type loop: the entry is created at zero on
      first use, then counted. */
  method CountProduit(types: Dicts.Dict<string, EmballageStats>, p: Produit) returns (types': Dicts.Dict<string, EmballageStats>)
    ensures types' == AddEmballage(types, p)
  {
    EmballageStep(types, p);
    var k := p.typeEmballage;
    types' := types;
    if Dicts.Get(types', k).None? {
      types' := Dicts.Put(types', k, EmballageStats(0, 0.0));
    }
    var e := Dicts.Get(types', k).value;
    types' := Dicts.Put(types', k, Counted(e, p.poidsNet));
  }

  /** The responsible loop of `get_statistiques_globales`. */
  method ResponsableLoop(data: seq<Rappatriement>) returns (responsables: Dicts.Dict<string, ResponsableStats>)
    ensures responsables == Responsables(data)
  {
    responsables := [];
    for i := 0 to |data|
      invariant responsables == Responsables(data[..i])
    {
      ResponsablesSnoc(data, i);
      ResponsableStep(responsables, data[i]);
      var k := data[i].responsableDiffusion;
      if Dicts.Get(responsables, k).None? {
        responsables := Dicts.Put(responsables, k, ResponsableStats(0, 0.0));
      }
      var e := Dicts.Get(responsables, k).value;
      responsables := Dicts.Put(responsables, k, Tallied(e, Rappatriements.PoidsTotal(data[i])));
    }
    assert data[..|data|] == data;
  }

  lemma AllProduitsSnoc(data: seq<Rappatriement>, i: nat)
    requires i < |data|
    ensures AllProduits(data[..i + 1]) == AllProduits(data[..i]) + data[i].produits
  {
    assert data[..i + 1][..i] == data[..i];
  }

  lemma TypesEmballageSnoc(prefix: seq<Produit>, ps: seq<Produit>, j: nat)
    requires j < |ps|
    ensures TypesEmballage(prefix + ps[..j + 1]) == AddEmballage(TypesEmballage(prefix + ps[..j]), ps[j])
  {
    var s := prefix + ps[..j + 1];
    assert s[..|s| - 1] == prefix + ps[..j];
    assert s[|s| - 1] == ps[j];
    TypesEmballageUnfold(s);
  }

  lemma TypesEmballageUnfold(ps: seq<Produit>)
    requires ps != []
    ensures TypesEmballage(ps) == AddEmballage(TypesEmballage(ps[..|ps| - 1]), ps[|ps| - 1])
  {
  }

  lemma ResponsablesSnoc(data: seq<Rappatriement>, i: nat)
    requires i < |data|
    ensures Responsables(data[..i + 1]) == AddResponsable(Responsables(data[..i]), data[i])
  {
    assert data[..i + 1][..i] == data[..i];
  }

  /** Creating the zero entry on first use and then incrementing it is `AddEmballage`. */
  lemma EmballageStep(d: Dicts.Dict<string, EmballageStats>, p: Produit)
    ensures Dicts.Get(d, p.typeEmballage).None? ==>
              Dicts.Get(Dicts.Put(d, p.typeEmballage, EmballageStats(0, 0.0)), p.typeEmballage) == Some(EmballageStats(0, 0.0)) &&
              Dicts.Put(Dicts.Put(d, p.typeEmballage, EmballageStats(0, 0.0)), p.typeEmballage, Counted(EmballageStats(0, 0.0), p.poidsNet))
                == AddEmballage(d, p)
    ensures Dicts.Get(d, p.typeEmballage).Some? ==>
              Dicts.Put(d, p.typeEmballage, Counted(Dicts.Get(d, p.typeEmballage).value, p.poidsNet)) == AddEmballage(d, p)
  {
    if Dicts.Get(d, p.typeEmballage).None? {
      Dicts.PutTwice(d, p.typeEmballage, EmballageStats(0, 0.0), Counted(EmballageStats(0, 0.0), p.poidsNet));
    }
  }

  /** Creating the zero entry on first use and then incrementing it is `AddResponsable`. */
  lemma ResponsableStep(d: Dicts.Dict<string, ResponsableStats>, r: Rappatriement)
    ensures Dicts.Get(d, r.responsableDiffusion).None? ==>
              Dicts.Get(Dicts.Put(d, r.responsableDiffusion, ResponsableStats(0, 0.0)), r.responsableDiffusion) == Some(ResponsableStats(0, 0.0)) &&
              Dicts.Put(Dicts.Put(d, r.responsableDiffusion, ResponsableStats(0, 0.0)), r.responsableDiffusion,
                        Tallied(ResponsableStats(0, 0.0), Rappatriements.PoidsTotal(r)))
                == AddResponsable(d, r)
    ensures Dicts.Get(d, r.responsableDiffusion).Some? ==>
              Dicts.Put(d, r.responsableDiffusion, Tallied(Dicts.Get(d, r.responsableDiffusion).value, Rappatriements.PoidsTotal(r)))
                == AddResponsable(d, r)
  {
    if Dicts.Get(d, r.responsableDiffusion).None? {
      Dicts.PutTwice(d, r.responsableDiffusion, ResponsableStats(0, 0.0), Tallied(ResponsableStats(0, 0.0), Rappatriements.PoidsTotal(r)));
    }
  }

  /** `total_produits` counts every product of every shipment. */
  lemma {:induction false} AllProduitsLength(data: seq<Rappatriement>)
    ensures Seqs.SumInt(data, NbProduitsOf) == |AllProduits(data)|
    decreases |data|
  {
    if data != [] {
      var init := data[..|data| - 1];
      AllProduitsLength(init);
      assert data == init + [data[|data| - 1]];
      Seqs.SumIntAppend(init, [data[|data| - 1]], NbProduitsOf);
    }
  }

  /** The products' weights add up to the shipments' weights. */
  lemma {:induction false} AllProduitsPoids(data: seq<Rappatriement>)
    ensures Seqs.Sum(AllProduits(data), Rappatriements.PoidsOf) == Seqs.Sum(data, Rappatriements.PoidsTotal)
    decreases |data|
  {
    if data != [] {
      var init, last := data[..|data| - 1], data[|data| - 1];
      AllProduitsPoids(init);
      assert data == init + [last];
      Seqs.SumAppend(init, [last], Rappatriements.PoidsTotal);
      Seqs.SumAppend(AllProduits(init), last.produits, Rappatriements.PoidsOf);
    }
  }

  /** One more product adds one to the counts and its weight to the weights. */
  lemma AddEmballageTotals(d: Dicts.Dict<string, EmballageStats>, p: Produit)
    ensures Dicts.SumValues(AddEmballage(d, p), EmballageCount) == Dicts.SumValues(d, EmballageCount) + 1
    ensures Dicts.SumValuesReal(AddEmballage(d, p), EmballagePoids) == Dicts.SumValuesReal(d, EmballagePoids) + p.poidsNet
  {
    var e := Counted(EmballageEntry(d, p.typeEmballage), p.poidsNet);
    Dicts.PutSumValues(d, p.typeEmballage, e, EmballageCount);
    Dicts.PutSumValuesReal(d, p.typeEmballage, e, EmballagePoids);
  }

  /** No packaging type appears twice. */
  lemma {:induction false} TypesEmballageUnique(ps: seq<Produit>)
    ensures Dicts.UniqueKeys(TypesEmballage(ps))
    decreases |ps|
  {
    if ps != [] {
      TypesEmballageUnique(ps[..|ps| - 1]);
    }
  }

  /** Per-type counts add up to the number of products. */
  lemma {:induction false} TypesEmballageCount(ps: seq<Produit>)
    ensures Dicts.SumValues(TypesEmballage(ps), EmballageCount) == |ps|
    decreases |ps|
  {
    if ps != [] {
      var init, p := ps[..|ps| - 1], ps[|ps| - 1];
      TypesEmballageCount(init);
      AddEmballageTotals(TypesEmballage(init), p);
    }
  }

  /** Per-type weights add up to the products' total weight. */
  lemma {:induction false} TypesEmballagePoids(ps: seq<Produit>)
    ensures Dicts.SumValuesReal(TypesEmballage(ps), EmballagePoids) == Seqs.Sum(ps, Rappatriements.PoidsOf)
    decreases |ps|
  {
    if ps != [] {
      var init, p := ps[..|ps| - 1], ps[|ps| - 1];
      assert Seqs.Sum(ps, Rappatriements.PoidsOf) == Seqs.Sum(init, Rappatriements.PoidsOf) + p.poidsNet by {
        assert ps == init + [p];
        Seqs.SumAppend(init, [p], Rappatriements.PoidsOf);
      }
      assert TypesEmballage(ps) == AddEmballage(TypesEmballage(init), p);
      TypesEmballagePoids(init);
      AddEmballageTotals(TypesEmballage(init), p);
    }
  }

  /** One more shipment adds one to the counts and its weight to the weights. */
  lemma AddResponsableTotals(d: Dicts.Dict<string, ResponsableStats>, r: Rappatriement)
    ensures Dicts.SumValues(AddResponsable(d, r), ResponsableCount) == Dicts.SumValues(d, ResponsableCount) + 1
    ensures Dicts.SumValuesReal(AddResponsable(d, r), ResponsablePoids)
              == Dicts.SumValuesReal(d, ResponsablePoids) + Rappatriements.PoidsTotal(r)
  {
    var e := Tallied(ResponsableEntry(d, r.responsableDiffusion), Rappatriements.PoidsTotal(r));
    Dicts.PutSumValues(d, r.responsableDiffusion, e, ResponsableCount);
    Dicts.PutSumValuesReal(d, r.responsableDiffusion, e, ResponsablePoids);
  }

  /** Per-responsible counts add up to the number of shipments and their
      weights to the total weight; no responsible appears twice. */
  lemma {:induction false} ResponsablesTotals(data: seq<Rappatriement>)
    ensures Dicts.UniqueKeys(Responsables(data))
    ensures Dicts.SumValues(Responsables(data), ResponsableCount) == |data|
    ensures Dicts.SumValuesReal(Responsables(data), ResponsablePoids) == Seqs.Sum(data, Rappatriements.PoidsTotal)
    decreases |data|
  {
    if data != [] {
      var init, r := data[..|data| - 1], data[|data| - 1];
      ResponsablesTotals(init);
      AddResponsableTotals(Responsables(init), r);
      Seqs.SumSnoc(data, Rappatriements.PoidsTotal);
    }
  }

  // ---------------------------------------------------------------------
  // Advanced filter

  /** The keyword arguments of `filter_rappatriements_advanced`. */
  datatype Criteria = Criteria(
    responsable: Option<string>,
    dateDebut: Option<Dates.DateTime>,
    dateFin: Option<Dates.DateTime>,
    adresseDestinataire: Option<string>,
    adresseEnlevement: Option<string>,
    codeProduit: Option<string>,
    typeEmballage: Option<string>,
    poidsMin: Option<real>,
    poidsMax: Option<real>,
    nbPalettesMin: Option<int>,
    nbPalettesMax: Option<int>)

  /** The criteria are switched on by truthiness: a text must be non-empty
      and a number non-zero; a date is always true when given. */
  predicate TextOn(o: Option<string>) { o.Some? && o.value != "" }
  predicate RealOn(o: Option<real>) { o.Some? && o.value != 0.0 }
  predicate IntOn(o: Option<int>) { o.Some? && o.value != 0 }

  predicate AnyProduit(r: Rappatriement, code: Option<string>, emballage: Option<string>) {
    exists i :: 0 <= i < |r.produits| &&
      (code.Some? ==> r.produits[i].codePrdt == code.value) &&
      (emballage.Some? ==> r.produits[i].typeEmballage == emballage.value)
  }

  predicate Passes(r: Rappatriement, c: Criteria) {
    && (!TextOn(c.responsable) || Text.ContainsIgnoreCase(c.responsable.value, r.responsableDiffusion))
    && (c.dateDebut.None? || (r.dateDemande.Some? && r.dateDemande.value >= c.dateDebut.value))
    && (c.dateFin.None? || (r.dateDemande.Some? && r.dateDemande.value <= c.dateFin.value))
    && (!TextOn(c.adresseDestinataire) || Text.ContainsIgnoreCase(c.adresseDestinataire.value, r.adresseDestinataire))
    && (!TextOn(c.adresseEnlevement) || Text.ContainsIgnoreCase(c.adresseEnlevement.value, r.adresseEnlevement))
    && (!TextOn(c.codeProduit) || AnyProduit(r, c.codeProduit, None))
    && (!TextOn(c.typeEmballage) || AnyProduit(r, None, c.typeEmballage))
    && (!RealOn(c.poidsMin) || Rappatriements.PoidsTotal(r) >= c.poidsMin.value)
    && (!RealOn(c.poidsMax) || Rappatriements.PoidsTotal(r) <= c.poidsMax.value)
    && (!IntOn(c.nbPalettesMin) || Rappatriements.NbPalettesTotal(r) >= c.nbPalettesMin.value)
    && (!IntOn(c.nbPalettesMax) || Rappatriements.NbPalettesTotal(r) <= c.nbPalettesMax.value)
  }

  function PassesAll(c: Criteria): Rappatriement -> bool {
    (r: Rappatriement) => Passes(r, c)
  }

  /** `filter_rappatriements_advanced` */
  function FilterAdvanced(data: seq<Rappatriement>, c: Criteria): (r: seq<Rappatriement>)
    ensures forall x :: x in r <==> x in data && Passes(x, c)
    ensures Seqs.IsSubsequence(r, data)
  {
    Seqs.FilterIsSubsequence(data, PassesAll(c));
    Seqs.Filter(data, PassesAll(c))
  }

  /** Criteria that pass the same shipments select the same list. */
  lemma SameFilter(data: seq<Rappatriement>, c: Criteria, c': Criteria)
    requires forall r :: Passes(r, c) == Passes(r, c')
    ensures FilterAdvanced(data, c) == FilterAdvanced(data, c')
  {
    Seqs.FilterSame(data, PassesAll(c), PassesAll(c'));
  }

  /** A threshold of zero, or an empty text, filters nothing: it gives the
      same result as leaving the criterion out. */
  lemma {:induction false} FalsyCriteriaIgnored(data: seq<Rappatriement>, c: Criteria)
    ensures FilterAdvanced(data, c.(poidsMin := Some(0.0))) == FilterAdvanced(data, c.(poidsMin := None))
    ensures FilterAdvanced(data, c.(poidsMax := Some(0.0))) == FilterAdvanced(data, c.(poidsMax := None))
    ensures FilterAdvanced(data, c.(nbPalettesMin := Some(0))) == FilterAdvanced(data, c.(nbPalettesMin := None))
    ensures FilterAdvanced(data, c.(nbPalettesMax := Some(0))) == FilterAdvanced(data, c.(nbPalettesMax := None))
    ensures FilterAdvanced(data, c.(responsable := Some(""))) == FilterAdvanced(data, c.(responsable := None))
  {
    FalsyCriterionIgnored(data, c.(poidsMin := Some(0.0)), c.(poidsMin := None));
    FalsyCriterionIgnored(data, c.(poidsMax := Some(0.0)), c.(poidsMax := None));
    FalsyCriterionIgnored(data, c.(nbPalettesMin := Some(0)), c.(nbPalettesMin := None));
    FalsyCriterionIgnored(data, c.(nbPalettesMax := Some(0)), c.(nbPalettesMax := None));
    FalsyCriterionIgnored(data, c.(responsable := Some("")), c.(responsable := None));
  }

  /** Two criteria that differ only in one field that is switched off in
      both select the same list. */
  lemma {:induction false} FalsyCriterionIgnored(data: seq<Rappatriement>, c: Criteria, c': Criteria)
    requires TextOn(c.responsable) == TextOn(c'.responsable)
    requires TextOn(c.responsable) ==> c.responsable == c'.responsable
    requires c.dateDebut == c'.dateDebut && c.dateFin == c'.dateFin
    requires c.adresseDestinataire == c'.adresseDestinataire && c.adresseEnlevement == c'.adresseEnlevement
    requires c.codeProduit == c'.codeProduit && c.typeEmballage == c'.typeEmballage
    requires RealOn(c.poidsMin) == RealOn(c'.poidsMin) && (RealOn(c.poidsMin) ==> c.poidsMin == c'.poidsMin)
    requires RealOn(c.poidsMax) == RealOn(c'.poidsMax) && (RealOn(c.poidsMax) ==> c.poidsMax == c'.poidsMax)
    requires IntOn(c.nbPalettesMin) == IntOn(c'.nbPalettesMin) && (IntOn(c.nbPalettesMin) ==> c.nbPalettesMin == c'.nbPalettesMin)
    requires IntOn(c.nbPalettesMax) == IntOn(c'.nbPalettesMax) && (IntOn(c.nbPalettesMax) ==> c.nbPalettesMax == c'.nbPalettesMax)
    ensures FilterAdvanced(data, c) == FilterAdvanced(data, c')
  {
    SameFilter(data, c, c');
  }
}
