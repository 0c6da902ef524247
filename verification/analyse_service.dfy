/** The coverage analysis engine (`services/analyse_service.py`): for each raw
    material, its open besoins are served in due-date order from a pool made
    of internal stock and matching shipment weight, and each besoin is
    classified as covered, partly covered or not covered. The repositories
    the service reads are passed in as their stored contents, or as stores
    where it matters that nothing is written back. */
module AnalyseService {
  import opened Wrappers
  import Seqs
  import Dicts
  import Dates
  import Sorting
  import Text
  import Besoins
  import Stocks
  import Receptions
  import Rappatriements
  import Analyse
  import Repository
  import BesoinsRepository
  import StocksRepository
  import RappatriementsRepository

  type Besoin = Besoins.Besoin
  type Etat = Besoins.Etat

  // ---------------------------------------------------------------------
  // Coverage state of one besoin

  /** The state labels the analysis works with before converting them. */
  const LabelCouvert: string := "COUVERT"
  const LabelPartiel: string := "PARTIEL"
  const LabelNonCouvert: string := "NON_COUVERT"

  /** `_string_to_etat`: the three labels map to their states and anything
      else to NON_COUVERT, so the unknown state never comes out. */
  function StringToEtat(s: string): (e: Etat)
    ensures e != Besoins.Inconnu
    ensures e == Besoins.Couvert <==> s == LabelCouvert
    ensures e == Besoins.Partiel <==> s == LabelPartiel
    ensures e == Besoins.NonCouvert <==> s != LabelCouvert && s != LabelPartiel
  {
    if s == LabelCouvert then Besoins.Couvert
    else if s == LabelPartiel then Besoins.Partiel
    else Besoins.NonCouvert
  }

  /** What `_calculate_coverage_state` returns: the label, the quantity the
      pool can give and the covered percentage. */
  datatype Coverage = Coverage(etat: string, disponible: real, pourcentage: real)

  /** `_calculate_coverage_state`: covered when the pool holds the whole
      quantity, partly covered when it holds something less, not covered
      when it is empty (or negative). */
  function CoverageState(stock: real, quantite: real): (c: Coverage)
    ensures c.etat == LabelCouvert <==> stock >= quantite
    ensures c.etat == LabelPartiel <==> 0.0 < stock < quantite
    ensures c.etat == LabelNonCouvert <==> stock <= 0.0 && stock < quantite
    ensures c.etat == LabelCouvert ==> c.disponible == quantite && c.pourcentage == 100.0
    ensures c.etat == LabelPartiel ==> c.disponible == stock && c.pourcentage * quantite == stock * 100.0
    ensures c.etat == LabelNonCouvert ==> c.disponible == 0.0 && c.pourcentage == 0.0
  {
    if stock >= quantite then Coverage(LabelCouvert, quantite, 100.0)
    else if stock > 0.0 then Coverage(LabelPartiel, stock, stock / quantite * 100.0)
    else Coverage(LabelNonCouvert, 0.0, 0.0)
  }

  /** For a valid (non-negative) quantity the pool never gives more than it
      holds nor more than is asked, and the percentage is 100 exactly when
      the besoin is covered. */
  lemma CoverageBounds(stock: real, quantite: real)
    requires quantite >= 0.0
    ensures var c := CoverageState(stock, quantite);
            && 0.0 <= c.disponible <= quantite
            && (c.disponible <= stock || c.disponible == 0.0)
            && 0.0 <= c.pourcentage <= 100.0
            && (c.pourcentage == 100.0 <==> c.etat == LabelCouvert)
  {
    var c := CoverageState(stock, quantite);
    if c.etat == LabelPartiel {
      assert c.pourcentage * quantite == stock * 100.0;
      assert stock * 100.0 < quantite * 100.0;
      assert c.pourcentage < 100.0;
      assert c.pourcentage > 0.0;
    }
  }

  /** The pool after serving a besoin: a covered besoin takes its quantity,
      a partly covered one empties the pool, an uncovered one leaves it. */
  function StockAfter(stock: real, quantite: real): real {
    if stock >= quantite then stock - quantite
    else if stock > 0.0 then 0.0
    else stock
  }

  /** The label `_calculate_coverage_state` gives, without its quantities. */
  function Label(stock: real, quantite: real): string {
    if stock >= quantite then LabelCouvert
    else if stock > 0.0 then LabelPartiel
    else LabelNonCouvert
  }

  /** The pool before the `i`-th besoin of `bs` is served. */
  function Running(bs: seq<Besoin>, initial: real, i: nat): real
    requires i <= |bs|
  {
    if i == 0 then initial else StockAfter(Running(bs, initial, i - 1), bs[i - 1].quantite)
  }

  /** The label given to the `i`-th besoin of `bs`. */
  function LabelAt(bs: seq<Besoin>, initial: real, i: nat): string
    requires i < |bs|
  {
    Label(Running(bs, initial, i), bs[i].quantite)
  }

  /** A pool that starts non-negative never goes negative. */
  lemma {:induction false} RunningNonNegative(bs: seq<Besoin>, initial: real, i: nat)
    requires i <= |bs| && initial >= 0.0
    ensures Running(bs, initial, i) >= 0.0
  {
    if i > 0 {
      RunningNonNegative(bs, initial, i - 1);
    }
  }

  /** With non-negative quantities the pool never grows. */
  lemma {:induction false} RunningNonIncreasing(bs: seq<Besoin>, initial: real, i: nat, j: nat)
    requires i <= j <= |bs|
    requires forall b :: b in bs ==> b.quantite >= 0.0
    requires initial >= 0.0
    ensures Running(bs, initial, j) <= Running(bs, initial, i)
    decreases j
  {
    if i < j {
      RunningNonIncreasing(bs, initial, i, j - 1);
      RunningNonNegative(bs, initial, j - 1);
      assert bs[j - 1] in bs;
    }
  }

  /** Once a besoin is not fully covered the pool is empty for good: every
      later besoin is covered only when it asks for nothing. */
  lemma {:induction false} ShortfallIsFinal(bs: seq<Besoin>, initial: real, i: nat, j: nat)
    requires i < j < |bs|
    requires forall b :: b in bs ==> b.quantite >= 0.0
    requires initial >= 0.0
    requires LabelAt(bs, initial, i) != LabelCouvert
    ensures Running(bs, initial, j) == 0.0
    ensures LabelAt(bs, initial, j) == LabelCouvert <==> bs[j].quantite == 0.0
    decreases j
  {
    RunningNonNegative(bs, initial, j);
    assert bs[j] in bs;
    if i < j - 1 {
      ShortfallIsFinal(bs, initial, i, j - 1);
      assert bs[j - 1] in bs;
    } else {
      RunningNonNegative(bs, initial, i);
    }
  }

  // ---------------------------------------------------------------------
  // The chronological passes

  /** `sorted(besoins, key=lambda b: b.echeance)` */
  function ByEcheance(besoins: seq<Besoin>): (r: seq<Besoin>)
    ensures |r| == |besoins| && multiset(r) == multiset(besoins)
    ensures Sorting.Sorted(r, BesoinsRepository.EcheanceOf, false)
  {
    BesoinsRepository.SortBesoinsByEcheance(besoins, false)
  }

  /** One entry of the list `_analyze_matiere_chronological_coverage` returns. */
  datatype CoverageResult = CoverageResult(
    besoin: Besoin,
    etat: string,
    disponible: real,
    pourcentage: real,
    stockRestant: real)

  /** The entry for the `i`-th besoin of `bs`. */
  function ResultAt(bs: seq<Besoin>, initial: real, i: nat): CoverageResult
    requires i < |bs|
  {
    var c := CoverageState(Running(bs, initial, i), bs[i].quantite);
    CoverageResult(bs[i], c.etat, c.disponible, c.pourcentage, Running(bs, initial, i + 1))
  }

  /** The results of a pass: one per besoin of the sorted list, each being
      the coverage of that besoin by the pool left by the ones before. */
  predicate IsCoveragePass(results: seq<CoverageResult>, sorted: seq<Besoin>, initial: real) {
    |results| == |sorted| && forall i :: 0 <= i < |results| ==> results[i] == ResultAt(sorted, initial, i)
  }

  /** The besoins of a list of results. */
  function Served(results: seq<CoverageResult>): (bs: seq<Besoin>)
    ensures |bs| == |results| && forall i :: 0 <= i < |results| ==> bs[i] == results[i].besoin
  {
    seq(|results|, i requires 0 <= i < |results| => results[i].besoin)
  }

  /** `_analyze_matiere_chronological_coverage`: one result per besoin, in
      due-date order, serving each from what the earlier ones left. */
  method ChronologicalCoverage(besoins: seq<Besoin>, stockInitial: real) returns (results: seq<CoverageResult>)
    ensures IsCoveragePass(results, ByEcheance(besoins), stockInitial)
    ensures multiset(Served(results)) == multiset(besoins)
    ensures forall i, j :: 0 <= i < j < |results| ==> results[i].besoin.echeance <= results[j].besoin.echeance
    ensures stockInitial >= 0.0 ==> forall i :: 0 <= i < |results| ==> results[i].stockRestant >= 0.0
  {
    var sorted := ByEcheance(besoins);
    results := [];
    var stock := stockInitial;
    for i := 0 to |sorted|
      invariant |results| == i
      invariant stock == Running(sorted, stockInitial, i)
      invariant forall k :: 0 <= k < i ==> results[k] == ResultAt(sorted, stockInitial, k)
    {
      var r;
      r, stock := CoverageStep(sorted, stockInitial, i, stock);
      ResultsSnoc(results, r, sorted, stockInitial, i);
      results := results + [r];
    }
    PassServes(results, sorted, stockInitial);
    if stockInitial >= 0.0 {
      PassNonNegative(results, sorted, stockInitial);
    }
  }

  /** One besoin of `_analyze_matiere_chronological_coverage`: its result and
      the pool it leaves. */
  method CoverageStep(sorted: seq<Besoin>, stockInitial: real, i: nat, stock: real)
    returns (r: CoverageResult, stockApres: real)
    requires i < |sorted| && stock == Running(sorted, stockInitial, i)
    ensures r == ResultAt(sorted, stockInitial, i)
    ensures stockApres == Running(sorted, stockInitial, i + 1)
  {
    var c := CoverageState(stock, sorted[i].quantite);
    stockApres := stock;
    if c.etat == LabelCouvert {
      stockApres := stock - sorted[i].quantite;
    } else if c.etat == LabelPartiel {
      stockApres := 0.0;
    }
    r := CoverageResult(sorted[i], c.etat, c.disponible, c.pourcentage, stockApres);
  }

  /** The results of the first `i` besoins followed by the next one's. */
  lemma ResultsSnoc(results: seq<CoverageResult>, r: CoverageResult, sorted: seq<Besoin>, initial: real, i: nat)
    requires i < |sorted| && |results| == i && r == ResultAt(sorted, initial, i)
    requires forall k :: 0 <= k < i ==> results[k] == ResultAt(sorted, initial, k)
    ensures forall k :: 0 <= k < i + 1 ==> (results + [r])[k] == ResultAt(sorted, initial, k)
  {
    forall k | 0 <= k < i + 1 ensures (results + [r])[k] == ResultAt(sorted, initial, k) {
      if k < i {
        assert (results + [r])[k] == results[k];
      }
    }
  }

  /** A pass serves the sorted besoins in their order. */
  lemma PassServes(results: seq<CoverageResult>, sorted: seq<Besoin>, initial: real)
    requires IsCoveragePass(results, sorted, initial)
    ensures Served(results) == sorted
  {
    forall i | 0 <= i < |results| ensures Served(results)[i] == sorted[i] {
      ResultAtFields(sorted, initial, i);
    }
  }

  /** From a non-negative start, a pass leaves a non-negative pool after each besoin. */
  lemma PassNonNegative(results: seq<CoverageResult>, sorted: seq<Besoin>, initial: real)
    requires IsCoveragePass(results, sorted, initial) && initial >= 0.0
    ensures forall i :: 0 <= i < |results| ==> results[i].stockRestant >= 0.0
  {
    forall i | 0 <= i < |results| ensures results[i].stockRestant >= 0.0 {
      ResultAtFields(sorted, initial, i);
      RunningNonNegative(sorted, initial, i + 1);
    }
  }

  /** The besoin a result is about and the pool it leaves. */
  lemma ResultAtFields(bs: seq<Besoin>, initial: real, i: nat)
    requires i < |bs|
    ensures ResultAt(bs, initial, i).besoin == bs[i]
    ensures ResultAt(bs, initial, i).stockRestant == Running(bs, initial, i + 1)
  {
  }

  /** The step the detailed pass records for the `i`-th besoin. */
  function EtapeAt(bs: seq<Besoin>, initial: real, i: nat): Analyse.EtapeChronologique
    requires i < |bs|
  {
    Analyse.EtapeChronologique(
      Dates.FormatIsoDate(bs[i].echeance), bs[i].quantite,
      Running(bs, initial, i), Running(bs, initial, i + 1), StringToEtat(LabelAt(bs, initial, i)))
  }

  /** The record of the first besoin that is not fully covered, at index `i`. */
  function PremierAt(bs: seq<Besoin>, initial: real, i: nat): Analyse.PremierBesoinNonCouvert
    requires i < |bs|
  {
    Analyse.PremierBesoinNonCouvert(
      i, Dates.FormatIsoDate(bs[i].echeance), bs[i].quantite,
      Running(bs, initial, i), bs[i].quantite - Running(bs, initial, i))
  }

  /** The first `n` besoins of `bs` are all fully covered. */
  predicate AllCovered(bs: seq<Besoin>, initial: real, n: nat)
    requires n <= |bs|
  {
    forall k :: 0 <= k < n ==> LabelAt(bs, initial, k) == LabelCouvert
  }

  /** `premier` records the first of the first `n` besoins that is not fully
      covered, and is empty when there is none. */
  predicate FirstShortfall(bs: seq<Besoin>, initial: real, n: nat, premier: Option<Analyse.PremierBesoinNonCouvert>)
    requires n <= |bs|
  {
    && (premier.None? <==> AllCovered(bs, initial, n))
    && (premier.Some? ==>
          var p := premier.value.index;
          && p < n
          && LabelAt(bs, initial, p) != LabelCouvert
          && AllCovered(bs, initial, p)
          && premier.value == PremierAt(bs, initial, p))
  }

  /** The detailed analysis of the sorted besoins `sorted` from `initial`:
      one step per besoin, the first shortfall (none exactly when every
      besoin is covered) and the pool at both ends. */
  predicate IsChronology(a: Analyse.AnalyseChronologique, sorted: seq<Besoin>, initial: real) {
    && |a.couvertureChronologique| == |sorted|
    && (forall i :: 0 <= i < |sorted| ==> a.couvertureChronologique[i] == EtapeAt(sorted, initial, i))
    && a.stockInitial == initial
    && a.stockFinal == Running(sorted, initial, |sorted|)
    && FirstShortfall(sorted, initial, |sorted|, a.premierBesoinNonCouvert)
  }

  /** Looking at one more besoin: the record is set at the first one that
      is not fully covered and kept from then on. */
  lemma FirstShortfallStep(bs: seq<Besoin>, initial: real, i: nat, premier: Option<Analyse.PremierBesoinNonCouvert>)
    requires i < |bs| && FirstShortfall(bs, initial, i, premier)
    ensures FirstShortfall(bs, initial, i + 1,
              if premier.None? && LabelAt(bs, initial, i) != LabelCouvert then Some(PremierAt(bs, initial, i)) else premier)
  {
    if premier.Some? {
      assert !AllCovered(bs, initial, i + 1) by {
        assert LabelAt(bs, initial, premier.value.index) != LabelCouvert;
      }
    }
  }

  /** One besoin of `_create_chronological_analysis`: its step, the pool
      after it, and the first shortfall so far. */
  method ChronologicalStep(sorted: seq<Besoin>, stockInitial: real, i: nat, stock: real,
                           premier: Option<Analyse.PremierBesoinNonCouvert>)
    returns (etape: Analyse.EtapeChronologique, stockApres: real, premier': Option<Analyse.PremierBesoinNonCouvert>)
    requires i < |sorted| && stock == Running(sorted, stockInitial, i)
    requires FirstShortfall(sorted, stockInitial, i, premier)
    ensures etape == EtapeAt(sorted, stockInitial, i)
    ensures stockApres == Running(sorted, stockInitial, i + 1)
    ensures FirstShortfall(sorted, stockInitial, i + 1, premier')
  {
    var b := sorted[i];
    var c := CoverageState(stock, b.quantite);
    FirstShortfallStep(sorted, stockInitial, i, premier);
    premier' := premier;
    if premier.None? && c.etat != LabelCouvert {
      premier' := Some(Analyse.PremierBesoinNonCouvert(
        i, Dates.FormatIsoDate(b.echeance), b.quantite, stock, b.quantite - stock));
    }
    stockApres := stock;
    if c.etat == LabelCouvert {
      stockApres := stockApres - b.quantite;
    } else if c.etat == LabelPartiel {
      stockApres := 0.0;
    }
    etape := Analyse.EtapeChronologique(
      Dates.FormatIsoDate(b.echeance), b.quantite, stock, stockApres, StringToEtat(c.etat));
  }

  /** `_create_chronological_analysis`, with its step states converted as
      `_create_analyse_chronologique_pydantic` does. */
  method ChronologicalAnalysis(besoins: seq<Besoin>, stockInitial: real) returns (a: Analyse.AnalyseChronologique)
    ensures IsChronology(a, ByEcheance(besoins), stockInitial)
    ensures var e := a.couvertureChronologique;
            forall i :: 0 <= i < |e| - 1 ==> e[i].stockApres == e[i + 1].stockAvant
    ensures var e := a.couvertureChronologique;
            a.stockFinal == if e == [] then a.stockInitial else e[|e| - 1].stockApres
    ensures stockInitial >= 0.0 ==> a.stockFinal >= 0.0
  {
    var sorted := ByEcheance(besoins);
    var stock := stockInitial;
    var etapes: seq<Analyse.EtapeChronologique> := [];
    var premier: Option<Analyse.PremierBesoinNonCouvert> := None;
    for i := 0 to |sorted|
      invariant |etapes| == i
      invariant stock == Running(sorted, stockInitial, i)
      invariant forall k :: 0 <= k < i ==> etapes[k] == EtapeAt(sorted, stockInitial, k)
      invariant FirstShortfall(sorted, stockInitial, i, premier)
    {
      var etape;
      etape, stock, premier := ChronologicalStep(sorted, stockInitial, i, stock, premier);
      EtapesSnoc(etapes, etape, sorted, stockInitial, i);
      etapes := etapes + [etape];
    }
    a := Analyse.AnalyseChronologique(etapes, premier, stockInitial, stock);
    ChronologyLinks(a, sorted, stockInitial);
  }

  /** The steps of the first `i` besoins followed by the next one's step. */
  lemma EtapesSnoc(etapes: seq<Analyse.EtapeChronologique>, etape: Analyse.EtapeChronologique,
                   sorted: seq<Besoin>, initial: real, i: nat)
    requires i < |sorted| && |etapes| == i && etape == EtapeAt(sorted, initial, i)
    requires forall k :: 0 <= k < i ==> etapes[k] == EtapeAt(sorted, initial, k)
    ensures forall k :: 0 <= k < i + 1 ==> (etapes + [etape])[k] == EtapeAt(sorted, initial, k)
  {
    forall k | 0 <= k < i + 1 ensures (etapes + [etape])[k] == EtapeAt(sorted, initial, k) {
      if k < i {
        assert (etapes + [etape])[k] == etapes[k];
      }
    }
  }

  /** In a detailed analysis each step starts with the pool the previous one
      left, the last one leaves the final pool, and a pool that starts
      non-negative ends non-negative. */
  lemma ChronologyLinks(a: Analyse.AnalyseChronologique, sorted: seq<Besoin>, initial: real)
    requires IsChronology(a, sorted, initial)
    ensures var e := a.couvertureChronologique;
            forall i :: 0 <= i < |e| - 1 ==> e[i].stockApres == e[i + 1].stockAvant
    ensures var e := a.couvertureChronologique;
            a.stockFinal == if e == [] then a.stockInitial else e[|e| - 1].stockApres
    ensures initial >= 0.0 ==> a.stockFinal >= 0.0
  {
    var e := a.couvertureChronologique;
    forall i | 0 <= i < |e| - 1 ensures e[i].stockApres == e[i + 1].stockAvant {
      assert e[i] == EtapeAt(sorted, initial, i) && e[i + 1] == EtapeAt(sorted, initial, i + 1);
    }
    if e != [] {
      assert e[|e| - 1] == EtapeAt(sorted, initial, |sorted| - 1);
    }
    if initial >= 0.0 {
      RunningNonNegative(sorted, initial, |sorted|);
    }
  }

  // ---------------------------------------------------------------------
  // The supply pool

  /** A product's weight when its code or designation contains the material
      code, ignoring case; nothing otherwise. */
  function MatchingPoids(code: string): Rappatriements.Produit -> real {
    (p: Rappatriements.Produit) =>
      if Text.ContainsIgnoreCase(code, p.codePrdt) || Text.ContainsIgnoreCase(code, p.designationPrdt)
      then p.poidsNet else 0.0
  }

  /** The shipment weight of a material over a list of shipments. */
  function RappatriementsQuantityOf(raps: seq<Rappatriements.Rappatriement>, code: string): real {
    Seqs.Sum(RappatriementsRepository.AllProduits(raps), MatchingPoids(code))
  }

  /** `_calculate_rappatriements_quantity`: the weight of every matching
      product of every shipment. */
  method RappatriementsQuantity(code: string, raps: seq<Rappatriements.Rappatriement>) returns (total: real)
    ensures total == RappatriementsQuantityOf(raps, code)
  {
    total := 0.0;
    for i := 0 to |raps|
      invariant total == RappatriementsQuantityOf(raps[..i], code)
    {
      var ps := raps[i].produits;
      ghost var before := total;
      for j := 0 to |ps|
        invariant total == before + Seqs.Sum(ps[..j], MatchingPoids(code))
      {
        Seqs.SumPrefixSnoc(ps, j + 1, MatchingPoids(code));
        if Text.ContainsIgnoreCase(code, ps[j].codePrdt) || Text.ContainsIgnoreCase(code, ps[j].designationPrdt) {
          total := total + ps[j].poidsNet;
        }
      }
      assert ps[..|ps|] == ps;
      assert raps[..i + 1][..i] == raps[..i];
      QuantityLast(raps[..i + 1], code);
    }
    assert raps[..|raps|] == raps;
  }

  /** A sum of zeros. */
  lemma {:induction false} SumOfZeros(ps: seq<Rappatriements.Produit>, f: Rappatriements.Produit -> real)
    requires forall p :: p in ps ==> f(p) == 0.0
    ensures Seqs.Sum(ps, f) == 0.0
  {
    if ps != [] {
      SumOfZeros(ps[1..], f);
    }
  }

  /** Shipments with no matching product weigh nothing for the material, so
      looking only at the shipments `get_rappatriements_by_matiere` returns
      loses nothing. */
  lemma {:induction false} ByMatiereKeepsQuantity(raps: seq<Rappatriements.Rappatriement>, code: string)
    ensures RappatriementsQuantityOf(RappatriementsRepository.ByMatiere(raps, code), code)
         == RappatriementsQuantityOf(raps, code)
    decreases |raps|
  {
    if raps != [] {
      var init, r := raps[..|raps| - 1], raps[|raps| - 1];
      var kept := RappatriementsRepository.ByMatiere(init, code);
      ByMatiereKeepsQuantity(init, code);
      QuantityLast(raps, code);
      ByMatiereLast(raps, code);
      if RappatriementsRepository.HasMatiere(r, code) {
        QuantityAppendOne(kept, r, code);
      } else {
        NoMatchWeighsNothing(r, code);
      }
    }
  }

  /** The last shipment adds the weight of its matching products. */
  lemma QuantityLast(raps: seq<Rappatriements.Rappatriement>, code: string)
    requires raps != []
    ensures RappatriementsQuantityOf(raps, code)
         == RappatriementsQuantityOf(raps[..|raps| - 1], code) + Seqs.Sum(raps[|raps| - 1].produits, MatchingPoids(code))
  {
    Seqs.SumAppend(RappatriementsRepository.AllProduits(raps[..|raps| - 1]), raps[|raps| - 1].produits, MatchingPoids(code));
  }

  /** One more shipment adds the weight of its matching products. */
  lemma QuantityAppendOne(raps: seq<Rappatriements.Rappatriement>, r: Rappatriements.Rappatriement, code: string)
    ensures RappatriementsQuantityOf(raps + [r], code)
         == RappatriementsQuantityOf(raps, code) + Seqs.Sum(r.produits, MatchingPoids(code))
  {
    var s := raps + [r];
    assert s[..|s| - 1] == raps && s[|s| - 1] == r;
    QuantityLast(s, code);
  }

  /** The material query keeps the last shipment exactly when it matches. */
  lemma ByMatiereLast(raps: seq<Rappatriements.Rappatriement>, code: string)
    requires raps != []
    ensures RappatriementsRepository.ByMatiere(raps, code)
         == if RappatriementsRepository.HasMatiere(raps[|raps| - 1], code)
            then RappatriementsRepository.ByMatiere(raps[..|raps| - 1], code) + [raps[|raps| - 1]]
            else RappatriementsRepository.ByMatiere(raps[..|raps| - 1], code)
  {
    assert raps == raps[..|raps| - 1] + [raps[|raps| - 1]];
    Seqs.FilterSnoc(raps[..|raps| - 1], raps[|raps| - 1], RappatriementsRepository.MatiereIn(code));
  }

  /** A shipment with no matching product adds nothing for the material. */
  lemma NoMatchWeighsNothing(r: Rappatriements.Rappatriement, code: string)
    requires !RappatriementsRepository.HasMatiere(r, code)
    ensures Seqs.Sum(r.produits, MatchingPoids(code)) == 0.0
  {
    forall p | p in r.produits ensures MatchingPoids(code)(p) == 0.0 {
      var i :| 0 <= i < |r.produits| && r.produits[i] == p;
    }
    SumOfZeros(r.produits, MatchingPoids(code));
  }

  /** The internal stock of a material. */
  function InternalQuantity(stocks: seq<Stocks.Stock>, code: string): real {
    StocksRepository.TotalInternalQuantityByMatiere(stocks, code)
  }

  /** The pool a material's besoins are served from. */
  function CoverageStockOf(stocks: seq<Stocks.Stock>, raps: seq<Rappatriements.Rappatriement>, code: string): real {
    InternalQuantity(stocks, code) + RappatriementsQuantityOf(raps, code)
  }

  /** `_get_coverage_stock_for_matiere`: internal stock plus the matching
      weight of the shipments listed for the material, which is the matching
      weight of all shipments. */
  method GetCoverageStock(stocks: seq<Stocks.Stock>, raps: seq<Rappatriements.Rappatriement>, code: string)
    returns (q: real)
    ensures q == CoverageStockOf(stocks, raps, code)
  {
    var internes := StocksRepository.TotalInternalQuantityByMatiere(stocks, code);
    var rappatriements := RappatriementsRepository.ByMatiere(raps, code);
    var quantite := RappatriementsQuantity(code, rappatriements);
    ByMatiereKeepsQuantity(raps, code);
    q := internes + quantite;
  }

  /** The pool is never negative, since stored quantities and weights are not. */
  lemma CoverageStockNonNegative(stocks: seq<Stocks.Stock>, raps: seq<Rappatriements.Rappatriement>, code: string)
    requires forall s :: s in stocks ==> s.quantite >= 0.0
    requires forall r, p :: r in raps && p in r.produits ==> p.poidsNet >= 0.0
    ensures CoverageStockOf(stocks, raps, code) >= 0.0
  {
    StocksRepository.TotalQuantityNonNegative(stocks, code);
    AllProduitsNonNegative(raps, code);
  }

  lemma {:induction false} AllProduitsNonNegative(raps: seq<Rappatriements.Rappatriement>, code: string)
    requires forall r, p :: r in raps && p in r.produits ==> p.poidsNet >= 0.0
    ensures RappatriementsQuantityOf(raps, code) >= 0.0
    decreases |raps|
  {
    if raps != [] {
      var init, r := raps[..|raps| - 1], raps[|raps| - 1];
      assert forall x :: x in init ==> x in raps;
      AllProduitsNonNegative(init, code);
      assert r in raps;
      Seqs.SumAppend(RappatriementsRepository.AllProduits(init), r.produits, MatchingPoids(code));
      Seqs.SumNonNegative(r.produits, MatchingPoids(code));
    }
  }

  // ---------------------------------------------------------------------
  // Other supplies of one material

  /** A reception's quantity when it is of the material, nothing otherwise. */
  function ReceptionShare(code: string): Receptions.Reception -> real {
    (r: Receptions.Reception) => if r.matiere.codeMp == code then r.quantite else 0.0
  }

  /** The quantity the receptions under way bring for the material. */
  function ReceptionsQuantity(enCours: seq<Receptions.Reception>, code: string): real {
    Seqs.Sum(enCours, ReceptionShare(code))
  }

  /** The quantity already recorded for warehouse `k`, zero when none is. */
  function ExterneOf(d: Dicts.Dict<string, real>, k: string): real {
    if d == [] then 0.0 else if d[0].0 == k then d[0].1 else ExterneOf(d[1..], k)
  }

  /** A stock line's quantity when it lies in warehouse `k`, nothing otherwise. */
  function InMagasin(k: string): Stocks.Stock -> real {
    (s: Stocks.Stock) => if s.magasin == k then s.quantite else 0.0
  }

  function Amount(q: real): real { q }

  /** Some line of `ss` lies in warehouse `k`. */
  predicate HasMagasin(ss: seq<Stocks.Stock>, k: string) {
    exists j :: 0 <= j < |ss| && ss[j].magasin == k
  }

  /** A dictionary of per-warehouse totals for the lines `ss`: one entry for
      each warehouse that appears, holding the sum of that warehouse's lines. */
  ghost predicate IsMagasinTotals(d: Dicts.Dict<string, real>, ss: seq<Stocks.Stock>) {
    && Dicts.UniqueKeys(d)
    && (forall k :: k in Dicts.Keys(d) <==> HasMagasin(ss, k))
    && (forall k :: ExterneOf(d, k) == Seqs.Sum(ss, InMagasin(k)))
    && Dicts.SumValuesReal(d, Amount) == Seqs.Sum(ss, StocksRepository.QuantiteOf)
  }

  /** The totals dictionary the detailed analysis builds from the external
      stock lines of a material. */
  method ExternesParMagasin(ss: seq<Stocks.Stock>) returns (d: Dicts.Dict<string, real>)
    ensures IsMagasinTotals(d, ss)
  {
    d := [];
    for i := 0 to |ss|
      invariant IsMagasinTotals(d, ss[..i])
    {
      var v := ExterneOf(d, ss[i].magasin) + ss[i].quantite;
      MagasinTotalsStep(d, ss, i, v);
      d := Dicts.Put(d, ss[i].magasin, v);
    }
    assert ss[..|ss|] == ss;
  }

  /** Adding the next line to its warehouse keeps the totals right. */
  lemma MagasinTotalsStep(d: Dicts.Dict<string, real>, ss: seq<Stocks.Stock>, i: nat, v: real)
    requires i < |ss| && IsMagasinTotals(d, ss[..i])
    requires v == ExterneOf(d, ss[i].magasin) + ss[i].quantite
    ensures IsMagasinTotals(Dicts.Put(d, ss[i].magasin, v), ss[..i + 1])
  {
    MagasinKeysStep(d, ss, i, v);
    forall k ensures ExterneOf(Dicts.Put(d, ss[i].magasin, v), k) == Seqs.Sum(ss[..i + 1], InMagasin(k)) {
      ExterneOfPut(d, ss[i].magasin, v, k);
      Seqs.SumPrefixSnoc(ss, i + 1, InMagasin(k));
    }
    MagasinSumStep(d, ss, i, v);
  }

  /** The warehouses with an entry after the next line are those before and the line's own. */
  lemma MagasinKeysStep(d: Dicts.Dict<string, real>, ss: seq<Stocks.Stock>, i: nat, v: real)
    requires i < |ss| && forall k :: k in Dicts.Keys(d) <==> HasMagasin(ss[..i], k)
    ensures forall k :: k in Dicts.Keys(Dicts.Put(d, ss[i].magasin, v)) <==> HasMagasin(ss[..i + 1], k)
  {
    Dicts.KeysGet(d, ss[i].magasin);
    forall k ensures HasMagasin(ss[..i + 1], k) <==> HasMagasin(ss[..i], k) || k == ss[i].magasin {
      HasMagasinSnoc(ss, i, k);
    }
  }

  lemma HasMagasinSnoc(ss: seq<Stocks.Stock>, i: nat, k: string)
    requires i < |ss|
    ensures HasMagasin(ss[..i + 1], k) <==> HasMagasin(ss[..i], k) || k == ss[i].magasin
  {
    if HasMagasin(ss[..i], k) {
      var j :| 0 <= j < i && ss[..i][j].magasin == k;
      assert ss[..i + 1][j].magasin == k;
    }
    if HasMagasin(ss[..i + 1], k) && k != ss[i].magasin {
      var j :| 0 <= j < i + 1 && ss[..i + 1][j].magasin == k;
      assert ss[..i][j].magasin == k;
    }
    assert ss[..i + 1][i].magasin == ss[i].magasin;
  }

  /** The next line's quantity adds to the sum of all the entries. */
  lemma MagasinSumStep(d: Dicts.Dict<string, real>, ss: seq<Stocks.Stock>, i: nat, v: real)
    requires i < |ss| && Dicts.SumValuesReal(d, Amount) == Seqs.Sum(ss[..i], StocksRepository.QuantiteOf)
    requires v == ExterneOf(d, ss[i].magasin) + ss[i].quantite
    ensures Dicts.SumValuesReal(Dicts.Put(d, ss[i].magasin, v), Amount) == Seqs.Sum(ss[..i + 1], StocksRepository.QuantiteOf)
  {
    AddToMagasinSum(d, ss[i].magasin, ss[i].quantite, v);
    Seqs.SumPrefixSnoc(ss, i + 1, StocksRepository.QuantiteOf);
  }

  /** Adding `q` to the entry of warehouse `m` adds `q` to the sum of all the entries. */
  lemma AddToMagasinSum(d: Dicts.Dict<string, real>, m: string, q: real, v: real)
    requires v == ExterneOf(d, m) + q
    ensures Dicts.SumValuesReal(Dicts.Put(d, m, v), Amount) == Dicts.SumValuesReal(d, Amount) + q
  {
    ExterneOfGet(d, m);
    match Dicts.Get(d, m)
    case None => Dicts.PutSumAdding(d, m, v, Amount);
    case Some(u) => Dicts.PutSumReplacing(d, m, u, v, Amount);
  }

  lemma ExterneOfPut(d: Dicts.Dict<string, real>, m: string, v: real, k: string)
    ensures ExterneOf(Dicts.Put(d, m, v), k) == if k == m then v else ExterneOf(d, k)
  {
    ExterneOfGet(Dicts.Put(d, m, v), k);
    ExterneOfGet(d, k);
  }

  lemma {:induction false} ExterneOfGet(d: Dicts.Dict<string, real>, k: string)
    ensures ExterneOf(d, k) == match Dicts.Get(d, k) case None => 0.0 case Some(u) => u
  {
    if d != [] && d[0].0 != k {
      ExterneOfGet(d[1..], k);
    }
  }

  // ---------------------------------------------------------------------
  // Analysis of one material

  /** The pool left before the `i`-th besoin holds all of it, which is when
      that besoin is labelled covered. */
  predicate PoolCovers(bs: seq<Besoin>, initial: real, i: nat)
    requires i < |bs|
  {
    Running(bs, initial, i) >= bs[i].quantite
  }

  /** How many of the first `n` besoins of `bs` are fully covered. */
  function CoveredCount(bs: seq<Besoin>, initial: real, n: nat): (c: nat)
    requires n <= |bs|
    ensures c <= n
  {
    if n == 0 then 0
    else CoveredCount(bs, initial, n - 1) + if PoolCovers(bs, initial, n - 1) then 1 else 0
  }

  /** All of the first `n` besoins are covered exactly when all are counted. */
  lemma {:induction false} CoveredCountFull(bs: seq<Besoin>, initial: real, n: nat)
    requires n <= |bs|
    ensures CoveredCount(bs, initial, n) == n <==> AllCovered(bs, initial, n)
  {
    if n > 0 {
      CoveredCountFull(bs, initial, n - 1);
      assert LabelAt(bs, initial, n - 1) == LabelCouvert <==> PoolCovers(bs, initial, n - 1);
      if CoveredCount(bs, initial, n) == n {
        assert CoveredCount(bs, initial, n - 1) == n - 1;
      }
    }
  }

  predicate IsCouvert(r: CoverageResult) { r.etat == LabelCouvert }

  function CouvertIn(): CoverageResult -> bool { (r: CoverageResult) => IsCouvert(r) }

  /** Counting covered results of a pass counts covered besoins. */
  lemma {:induction false} CountCovered(results: seq<CoverageResult>, sorted: seq<Besoin>, initial: real, n: nat)
    requires IsCoveragePass(results, sorted, initial) && n <= |results|
    ensures Seqs.Count(results[..n], CouvertIn()) == CoveredCount(sorted, initial, n)
  {
    forall i | 0 <= i < n
      ensures CouvertIn()(results[i]) <==> PoolCovers(sorted, initial, i)
    {
      CoveredAt(results, sorted, initial, i);
    }
    CountLabels(results, sorted, initial, n);
  }

  /** Over a whole pass. */
  lemma CountCoveredAll(results: seq<CoverageResult>, sorted: seq<Besoin>, initial: real)
    requires IsCoveragePass(results, sorted, initial)
    ensures Seqs.Count(results, CouvertIn()) == CoveredCount(sorted, initial, |sorted|)
  {
    assert results[..|results|] == results;
    CountCovered(results, sorted, initial, |results|);
  }

  lemma {:induction false} CountLabels(results: seq<CoverageResult>, sorted: seq<Besoin>, initial: real, n: nat)
    requires n <= |results| && n <= |sorted|
    requires forall i :: 0 <= i < n ==> (CouvertIn()(results[i]) <==> PoolCovers(sorted, initial, i))
    ensures Seqs.Count(results[..n], CouvertIn()) == CoveredCount(sorted, initial, n)
  {
    if n > 0 {
      CountLabels(results, sorted, initial, n - 1);
      Seqs.CountPrefixSnoc(results, n, CouvertIn());
    }
  }

  /** A result of a pass is covered exactly when its besoin's label says so. */
  lemma CoveredAt(results: seq<CoverageResult>, sorted: seq<Besoin>, initial: real, i: nat)
    requires IsCoveragePass(results, sorted, initial) && i < |results|
    ensures CouvertIn()(results[i]) <==> PoolCovers(sorted, initial, i)
  {
    assert results[i] == ResultAt(sorted, initial, i);
  }

  /** The per-besoin record of the detailed analysis, carrying the
      material-wide quantities next to the besoin's own coverage. */
  function ToCouverture(r: CoverageResult, internes: real, externes: Dicts.Dict<string, real>,
                        receptions: real, rappatriements: real): Analyse.CouvertureBesoin
  {
    Analyse.CouvertureBesoin(
      r.besoin, r.besoin.quantite, internes, externes, receptions, rappatriements,
      r.disponible, StringToEtat(r.etat), r.pourcentage, r.stockRestant)
  }

  /** `part / whole * 100`, or 0 when there is nothing to divide by. */
  function Percent(part: int, whole: int): (t: real)
    ensures whole <= 0 ==> t == 0.0
    ensures whole > 0 ==> t * (whole as real) == (part as real) * 100.0
  {
    if whole > 0 then (part as real) / (whole as real) * 100.0 else 0.0
  }

  /** A share of a whole is a percentage, and all of it exactly when it is 100. */
  lemma PercentBounds(part: int, whole: int)
    requires 0 <= part <= whole && whole > 0
    ensures 0.0 <= Percent(part, whole) <= 100.0
    ensures Percent(part, whole) == 100.0 <==> part == whole
  {
    var t, p, w := Percent(part, whole), part as real, whole as real;
    assert t * w == p * 100.0;
    assert (t - 100.0) * w == (p - w) * 100.0;
    assert t < 0.0 ==> t * w < 0.0;
    assert t > 100.0 ==> (t - 100.0) * w > 0.0;
    assert t < 100.0 ==> (t - 100.0) * w < 0.0;
  }

  /** `max(0, x)` */
  function AtLeastZero(x: real): (r: real)
    ensures r >= 0.0 && r >= x && (r == 0.0 || r == x)
  {
    if x > 0.0 then x else 0.0
  }

  /** `_analyze_single_matiere`, with its result converted as
      `_create_analyse_matiere_pydantic` does. The receptions under way are
      passed in. */
  method AnalyzeSingleMatiere(codeMp: string, besoins: seq<Besoin>, stocks: seq<Stocks.Stock>,
                              raps: seq<Rappatriements.Rappatriement>, enCours: seq<Receptions.Reception>)
    returns (m: Analyse.AnalyseMatiere)
    ensures m.codeMp == codeMp
    ensures m.nomMatiere == if besoins == [] then Besoins.UnknownName else besoins[0].matiere.nom
    ensures m.totalBesoins == |besoins|
    ensures m.totalCouverts == CoveredCount(ByEcheance(besoins), CoverageStockOf(stocks, raps, codeMp), |besoins|)
    ensures Analyse.Consistent(m)
    ensures m.tauxCouverture == Percent(m.totalCouverts, m.totalBesoins)
    ensures m.quantiteBesoinTotale == Seqs.Sum(besoins, BesoinsRepository.QuantiteOf)
    ensures m.quantiteStockInternes == InternalQuantity(stocks, codeMp)
    ensures IsMagasinTotals(m.stocksExternes, StocksRepository.ExternalStocksByMatiere(stocks, codeMp))
    ensures m.quantiteReceptions == ReceptionsQuantity(enCours, codeMp)
    ensures m.quantiteRappatriements == RappatriementsQuantityOf(raps, codeMp)
    ensures m.stockCouvertureDisponible == CoverageStockOf(stocks, raps, codeMp)
    ensures m.quantiteTotaleDisponible
         == StocksRepository.TotalQuantityByMatiere(stocks, codeMp) + m.quantiteReceptions + m.quantiteRappatriements
    ensures m.stockManquant >= 0.0 && m.stockManquant >= m.quantiteBesoinTotale - m.stockCouvertureDisponible
    ensures m.stockManquant == 0.0 || m.stockManquant == m.quantiteBesoinTotale - m.stockCouvertureDisponible
    ensures IsChronology(m.analyseChronologique, ByEcheance(besoins), CoverageStockOf(stocks, raps, codeMp))
    ensures |m.couvertureParBesoin| == |besoins|
    ensures forall i :: 0 <= i < |besoins| ==>
              m.couvertureParBesoin[i] == ToCouverture(ResultAt(ByEcheance(besoins), CoverageStockOf(stocks, raps, codeMp), i),
                m.quantiteStockInternes, m.stocksExternes, m.quantiteReceptions, m.quantiteRappatriements)
    ensures m.analyseChronologique.premierBesoinNonCouvert.None? <==> m.totalCouverts == m.totalBesoins
  {
    var internes := StocksRepository.InternalStocksByMatiere(stocks, codeMp);
    var externes := StocksRepository.ExternalStocksByMatiere(stocks, codeMp);
    var rappatriementsEnCours := RappatriementsRepository.ByMatiere(raps, codeMp);

    var quantiteInternes := Seqs.Sum(internes, StocksRepository.QuantiteOf);
    var quantiteRappatriements := RappatriementsQuantity(codeMp, rappatriementsEnCours);
    ByMatiereKeepsQuantity(raps, codeMp);
    var quantiteReceptions := Seqs.Sum(enCours, ReceptionShare(codeMp));
    var externesParMagasin := ExternesParMagasin(externes);

    var stockCouverture := quantiteInternes + quantiteRappatriements;
    assert stockCouverture == CoverageStockOf(stocks, raps, codeMp);
    var couverts, couvertures, chrono :=
      MatiereCoverage(besoins, stockCouverture, quantiteInternes, externesParMagasin, quantiteReceptions, quantiteRappatriements);

    var quantiteBesoinTotale := Seqs.Sum(besoins, BesoinsRepository.QuantiteOf);
    var total := |besoins|;
    var taux := Percent(couverts, total);
    m := Analyse.AnalyseMatiere(
      codeMp,
      if besoins != [] then besoins[0].matiere.nom else Besoins.UnknownName,
      total, couverts, taux, quantiteBesoinTotale, quantiteInternes, externesParMagasin,
      quantiteReceptions, quantiteRappatriements,
      quantiteInternes + Dicts.SumValuesReal(externesParMagasin, Amount) + quantiteReceptions + quantiteRappatriements,
      stockCouverture, AtLeastZero(quantiteBesoinTotale - stockCouverture), couvertures, chrono);

  }

  /** The coverage half of `_analyze_single_matiere`: the pass over the
      besoins from the pool, the covered count, the per-besoin records and
      the detailed analysis. */
  method MatiereCoverage(besoins: seq<Besoin>, stockCouverture: real, internes: real,
                         externes: Dicts.Dict<string, real>, receptions: real, rappatriements: real)
    returns (couverts: nat, couvertures: seq<Analyse.CouvertureBesoin>, chrono: Analyse.AnalyseChronologique)
    ensures couverts == CoveredCount(ByEcheance(besoins), stockCouverture, |besoins|)
    ensures |couvertures| == |besoins|
    ensures forall i :: 0 <= i < |besoins| ==>
              couvertures[i] == ToCouverture(ResultAt(ByEcheance(besoins), stockCouverture, i),
                internes, externes, receptions, rappatriements)
    ensures IsChronology(chrono, ByEcheance(besoins), stockCouverture)
    ensures chrono.premierBesoinNonCouvert.None? <==> couverts == |besoins|
  {
    var results := ChronologicalCoverage(besoins, stockCouverture);
    couverts := Seqs.Count(results, CouvertIn());
    chrono := ChronologicalAnalysis(besoins, stockCouverture);
    couvertures := Couvertures(results, internes, externes, receptions, rappatriements);
    var sorted := ByEcheance(besoins);
    CountCoveredAll(results, sorted, stockCouverture);
    CoveredCountFull(sorted, stockCouverture, |sorted|);
  }

  /** The conversion loop of `_create_analyse_matiere_pydantic`. */
  method Couvertures(results: seq<CoverageResult>, internes: real, externes: Dicts.Dict<string, real>,
                     receptions: real, rappatriements: real) returns (cs: seq<Analyse.CouvertureBesoin>)
    ensures |cs| == |results|
    ensures forall i :: 0 <= i < |results| ==> cs[i] == ToCouverture(results[i], internes, externes, receptions, rappatriements)
  {
    cs := [];
    for i := 0 to |results|
      invariant |cs| == i
      invariant forall k :: 0 <= k < i ==> cs[k] == ToCouverture(results[k], internes, externes, receptions, rappatriements)
    {
      var r := results[i];
      cs := cs + [Analyse.CouvertureBesoin(
        r.besoin, r.besoin.quantite, internes, externes, receptions, rappatriements,
        r.disponible, StringToEtat(r.etat), r.pourcentage, r.stockRestant)];
    }
  }

  // ---------------------------------------------------------------------
  // Per-material statistics

  type Stats = Analyse.StatistiquesMatiere

  /** The statistics a material starts from when its first record is seen. */
  function NewStats(nom: string): Stats {
    Analyse.StatistiquesMatiere(nom, 0, 0, 0, 0, 0.0, 0.0, [], 0.0, 0.0, 0.0, 0.0)
  }

  /** The statistics recorded for material `k`, fresh ones named `nom` when none are. */
  function StatsEntry(d: Dicts.Dict<string, Stats>, k: string, nom: string): Stats {
    if d == [] then NewStats(nom) else if d[0].0 == k then d[0].1 else StatsEntry(d[1..], k, nom)
  }

  function CodeOf(c: Analyse.CouvertureBesoin): string { c.besoin.matiere.codeMp }

  /** Counting one more record into a material's statistics: the totals
      grow, the shipment quantity and the external stocks are taken from the
      first record that has them, and the state is counted. */
  function Tally(s: Stats, c: Analyse.CouvertureBesoin): Stats {
    s.(totalBesoins := s.totalBesoins + 1,
       quantiteBesoinTotale := s.quantiteBesoinTotale + c.quantiteBesoin,
       quantiteDisponibleTotale := s.quantiteDisponibleTotale + c.quantiteDisponibleCouverture,
       quantiteRappatriements := if s.quantiteRappatriements == 0.0 then c.quantiteRappatriements else s.quantiteRappatriements,
       stocksExternes := if s.stocksExternes == [] then c.stocksExternes else s.stocksExternes,
       totalCouverts := s.totalCouverts + if c.etatCouverture == Besoins.Couvert then 1 else 0,
       totalPartiels := s.totalPartiels + if c.etatCouverture == Besoins.Partiel then 1 else 0,
       totalNonCouverts := s.totalNonCouverts +
         if c.etatCouverture == Besoins.Couvert || c.etatCouverture == Besoins.Partiel then 0 else 1)
  }

  function AddStats(d: Dicts.Dict<string, Stats>, c: Analyse.CouvertureBesoin): Dicts.Dict<string, Stats> {
    Dicts.Put(d, CodeOf(c), Tally(StatsEntry(d, CodeOf(c), c.besoin.matiere.nom), c))
  }

  /** The counted statistics of a list of records, before the rates. */
  function StatsOf(cs: seq<Analyse.CouvertureBesoin>): Dicts.Dict<string, Stats> {
    if cs == [] then [] else AddStats(StatsOf(cs[..|cs| - 1]), cs[|cs| - 1])
  }

  /** The three rates, set only when there is something counted. */
  function WithRates(s: Stats): Stats {
    if s.totalBesoins > 0 then
      s.(tauxCouverture := Percent(s.totalCouverts, s.totalBesoins),
         tauxPartiel := Percent(s.totalPartiels, s.totalBesoins),
         tauxNonCouvert := Percent(s.totalNonCouverts, s.totalBesoins))
    else s
  }

  function Rated(d: Dicts.Dict<string, Stats>): (r: Dicts.Dict<string, Stats>)
    ensures |r| == |d| && forall i :: 0 <= i < |d| ==> r[i] == (d[i].0, WithRates(d[i].1))
  {
    seq(|d|, i requires 0 <= i < |d| => (d[i].0, WithRates(d[i].1)))
  }

  /** Statistics whose three state counts split the count of records, of
      which there is at least one. */
  predicate Balanced(s: Stats) {
    && s.totalBesoins > 0
    && s.totalCouverts >= 0 && s.totalPartiels >= 0 && s.totalNonCouverts >= 0
    && s.totalCouverts + s.totalPartiels + s.totalNonCouverts == s.totalBesoins
  }

  /** Balanced statistics whose rates are the shares of the three counts. */
  predicate RatedBalanced(s: Stats) {
    && Balanced(s)
    && s.tauxCouverture == Percent(s.totalCouverts, s.totalBesoins)
    && s.tauxPartiel == Percent(s.totalPartiels, s.totalBesoins)
    && s.tauxNonCouvert == Percent(s.totalNonCouverts, s.totalBesoins)
  }

  function BalancedIn(): Stats -> bool { (s: Stats) => Balanced(s) }
  function RatedBalancedIn(): Stats -> bool { (s: Stats) => RatedBalanced(s) }
  function TotalOf(s: Stats): int { s.totalBesoins }

  /** A record of material `k`. */
  function OfMatiere(k: string): Analyse.CouvertureBesoin -> bool {
    (c: Analyse.CouvertureBesoin) => CodeOf(c) == k
  }

  /** Some record is of material `k`. */
  predicate Mentions(cs: seq<Analyse.CouvertureBesoin>, k: string) {
    exists i :: 0 <= i < |cs| && CodeOf(cs[i]) == k
  }

  /** `_calculate_matiere_stats_from_couvertures`: one entry per material, in
      the order materials first appear, counting its records by state, and
      then the three rates of every entry. */
  method MatiereStats(cs: seq<Analyse.CouvertureBesoin>) returns (stats: Dicts.Dict<string, Stats>)
    ensures stats == Rated(StatsOf(cs))
    ensures Dicts.UniqueKeys(stats)
    ensures forall k :: k in Dicts.Keys(stats) <==> Mentions(cs, k)
    ensures Dicts.AllValues(stats, RatedBalancedIn())
    ensures Dicts.SumValues(stats, TotalOf) == |cs|
    ensures forall k :: StatsEntry(stats, k, "").totalBesoins == Seqs.Count(cs, OfMatiere(k))
  {
    var counted := CountStats(cs);
    stats := SetRates(counted);
    StatsOfFacts(cs);
    RatedFacts(counted);
    forall k ensures StatsEntry(stats, k, "").totalBesoins == Seqs.Count(cs, OfMatiere(k)) {
      StatsOfCount(cs, k, "");
      RatedEntry(counted, k, "");
    }
  }

  /** The counting loop of `_calculate_matiere_stats_from_couvertures`. */
  method CountStats(cs: seq<Analyse.CouvertureBesoin>) returns (stats: Dicts.Dict<string, Stats>)
    ensures stats == StatsOf(cs)
  {
    stats := [];
    for i := 0 to |cs|
      invariant stats == StatsOf(cs[..i])
    {
      StatsOfSnoc(cs, i);
      var c := cs[i];
      var code := c.besoin.matiere.codeMp;
      var e := StatsEntry(stats, code, c.besoin.matiere.nom);
      var s := CountRecord(e, c);
      stats := Dicts.Put(stats, code, s);
    }
    assert cs[..|cs|] == cs;
  }

  /** The body of the counting loop: one more record counted into the
      entry of its material. */
  method CountRecord(e: Stats, c: Analyse.CouvertureBesoin) returns (s: Stats)
    ensures s == Tally(e, c)
  {
    var rappatriements := e.quantiteRappatriements;
    if rappatriements == 0.0 {
      rappatriements := c.quantiteRappatriements;
    }
    var externes := e.stocksExternes;
    if externes == [] {
      externes := c.stocksExternes;
    }
    var couverts, partiels, nonCouverts := e.totalCouverts, e.totalPartiels, e.totalNonCouverts;
    if c.etatCouverture == Besoins.Couvert {
      couverts := couverts + 1;
    } else if c.etatCouverture == Besoins.Partiel {
      partiels := partiels + 1;
    } else {
      nonCouverts := nonCouverts + 1;
    }
    s := e.(totalBesoins := e.totalBesoins + 1,
            quantiteBesoinTotale := e.quantiteBesoinTotale + c.quantiteBesoin,
            quantiteDisponibleTotale := e.quantiteDisponibleTotale + c.quantiteDisponibleCouverture,
            quantiteRappatriements := rappatriements, stocksExternes := externes,
            totalCouverts := couverts, totalPartiels := partiels, totalNonCouverts := nonCouverts);
  }

  /** The rate loop of `_calculate_matiere_stats_from_couvertures`, which
      updates each entry where it stands. */
  method SetRates(counted: Dicts.Dict<string, Stats>) returns (stats: Dicts.Dict<string, Stats>)
    ensures stats == Rated(counted)
  {
    stats := counted;
    for i := 0 to |stats|
      invariant |stats| == |counted|
      invariant forall j :: 0 <= j < i ==> stats[j] == (counted[j].0, WithRates(counted[j].1))
      invariant forall j :: i <= j < |stats| ==> stats[j] == counted[j]
    {
      var s := stats[i].1;
      if s.totalBesoins > 0 {
        s := s.(tauxCouverture := Percent(s.totalCouverts, s.totalBesoins),
                tauxPartiel := Percent(s.totalPartiels, s.totalBesoins),
                tauxNonCouvert := Percent(s.totalNonCouverts, s.totalBesoins));
        stats := stats[i := (stats[i].0, s)];
      }
    }
  }

  lemma StatsOfSnoc(cs: seq<Analyse.CouvertureBesoin>, i: nat)
    requires i < |cs|
    ensures StatsOf(cs[..i + 1]) == AddStats(StatsOf(cs[..i]), cs[i])
  {
    assert cs[..i + 1][..i] == cs[..i];
  }

  /** The counted statistics: unique material keys, exactly the materials
      mentioned, balanced entries, and one count per record. */
  lemma StatsOfFacts(cs: seq<Analyse.CouvertureBesoin>)
    ensures Dicts.UniqueKeys(StatsOf(cs))
    ensures forall k :: k in Dicts.Keys(StatsOf(cs)) <==> Mentions(cs, k)
    ensures Dicts.AllValues(StatsOf(cs), BalancedIn())
    ensures Dicts.SumValues(StatsOf(cs), TotalOf) == |cs|
  {
    StatsOfUnique(cs);
    StatsOfKeys(cs);
    StatsOfBalanced(cs);
    StatsOfTotal(cs);
  }

  lemma {:induction false} StatsOfUnique(cs: seq<Analyse.CouvertureBesoin>)
    ensures Dicts.UniqueKeys(StatsOf(cs))
    decreases |cs|
  {
    if cs != [] {
      StatsOfUnique(cs[..|cs| - 1]);
    }
  }

  lemma {:induction false} StatsOfKeys(cs: seq<Analyse.CouvertureBesoin>)
    ensures forall k :: k in Dicts.Keys(StatsOf(cs)) <==> Mentions(cs, k)
    decreases |cs|
  {
    if cs != [] {
      var init, c := cs[..|cs| - 1], cs[|cs| - 1];
      StatsOfKeys(init);
      var d := StatsOf(init);
      Dicts.KeysGet(d, CodeOf(c));
      forall k ensures Mentions(cs, k) <==> Mentions(init, k) || k == CodeOf(c) {
        MentionsSnoc(cs, k);
      }
    }
  }

  lemma MentionsSnoc(cs: seq<Analyse.CouvertureBesoin>, k: string)
    requires cs != []
    ensures Mentions(cs, k) <==> Mentions(cs[..|cs| - 1], k) || k == CodeOf(cs[|cs| - 1])
  {
    var init := cs[..|cs| - 1];
    if Mentions(init, k) {
      var i :| 0 <= i < |init| && CodeOf(init[i]) == k;
      assert cs[i] == init[i];
    }
    if Mentions(cs, k) && k != CodeOf(cs[|cs| - 1]) {
      var i :| 0 <= i < |cs| && CodeOf(cs[i]) == k;
      assert init[i] == cs[i];
    }
  }

  /** One more record keeps every entry balanced. */
  lemma TallyBalanced(s: Stats, c: Analyse.CouvertureBesoin)
    requires s == NewStats(s.nom) || Balanced(s)
    ensures Balanced(Tally(s, c))
  {
  }

  lemma {:induction false} StatsEntryBalanced(d: Dicts.Dict<string, Stats>, k: string, nom: string)
    requires Dicts.AllValues(d, BalancedIn())
    ensures StatsEntry(d, k, nom) == NewStats(nom) || Balanced(StatsEntry(d, k, nom))
  {
    if d != [] && d[0].0 != k {
      assert BalancedIn()(d[0].1);
      StatsEntryBalanced(d[1..], k, nom);
    }
  }

  lemma {:induction false} StatsOfBalanced(cs: seq<Analyse.CouvertureBesoin>)
    ensures Dicts.AllValues(StatsOf(cs), BalancedIn())
    decreases |cs|
  {
    if cs != [] {
      var init, c := cs[..|cs| - 1], cs[|cs| - 1];
      var d := StatsOf(init);
      StatsOfBalanced(init);
      var e := StatsEntry(d, CodeOf(c), c.besoin.matiere.nom);
      StatsEntryBalanced(d, CodeOf(c), c.besoin.matiere.nom);
      TallyBalanced(e, c);
      Dicts.PutAllValues(d, CodeOf(c), Tally(e, c), BalancedIn());
    }
  }

  lemma {:induction false} StatsEntryGet(d: Dicts.Dict<string, Stats>, k: string, nom: string)
    ensures StatsEntry(d, k, nom) == match Dicts.Get(d, k) case None => NewStats(nom) case Some(u) => u
  {
    if d != [] && d[0].0 != k {
      StatsEntryGet(d[1..], k, nom);
    }
  }

  lemma {:induction false} StatsOfTotal(cs: seq<Analyse.CouvertureBesoin>)
    ensures Dicts.SumValues(StatsOf(cs), TotalOf) == |cs|
    decreases |cs|
  {
    if cs != [] {
      var init, c := cs[..|cs| - 1], cs[|cs| - 1];
      var d := StatsOf(init);
      StatsOfTotal(init);
      var e := StatsEntry(d, CodeOf(c), c.besoin.matiere.nom);
      StatsEntryGet(d, CodeOf(c), c.besoin.matiere.nom);
      Dicts.PutSumValues(d, CodeOf(c), Tally(e, c), TotalOf);
    }
  }

  /** Setting the rates keeps the keys and counts and makes every balanced
      entry a rated one. */
  lemma {:induction false} RatedFacts(d: Dicts.Dict<string, Stats>)
    requires Dicts.AllValues(d, BalancedIn())
    ensures Dicts.Keys(Rated(d)) == Dicts.Keys(d)
    ensures Dicts.UniqueKeys(d) ==> Dicts.UniqueKeys(Rated(d))
    ensures Dicts.AllValues(Rated(d), RatedBalancedIn())
    ensures Dicts.SumValues(Rated(d), TotalOf) == Dicts.SumValues(d, TotalOf)
  {
    if d != [] {
      RatedFacts(d[1..]);
      assert Rated(d)[1..] == Rated(d[1..]);
      assert BalancedIn()(d[0].1);
    }
    forall i | 0 <= i < |d| ensures RatedBalancedIn()(Rated(d)[i].1) {
      assert BalancedIn()(d[i].1);
    }
  }

  /** Each material's entry counts exactly that material's records. */
  lemma {:induction false} StatsOfCount(cs: seq<Analyse.CouvertureBesoin>, k: string, nom: string)
    ensures StatsEntry(StatsOf(cs), k, nom).totalBesoins == Seqs.Count(cs, OfMatiere(k))
    decreases |cs|
  {
    if cs != [] {
      var init, c := cs[..|cs| - 1], cs[|cs| - 1];
      StatsOfCount(init, k, nom);
      AddStatsCount(StatsOf(init), c, k, nom);
    }
  }

  /** One more record adds one to its own material's count only. */
  lemma AddStatsCount(d: Dicts.Dict<string, Stats>, c: Analyse.CouvertureBesoin, k: string, nom: string)
    ensures StatsEntry(AddStats(d, c), k, nom).totalBesoins
         == StatsEntry(d, k, nom).totalBesoins + if CodeOf(c) == k then 1 else 0
  {
    var e := StatsEntry(d, CodeOf(c), c.besoin.matiere.nom);
    StatsEntryPut(d, CodeOf(c), Tally(e, c), k, nom);
    StatsEntryName(d, k, nom, c.besoin.matiere.nom);
  }

  lemma StatsEntryPut(d: Dicts.Dict<string, Stats>, m: string, v: Stats, k: string, nom: string)
    ensures StatsEntry(Dicts.Put(d, m, v), k, nom) == if k == m then v else StatsEntry(d, k, nom)
  {
    StatsEntryGet(Dicts.Put(d, m, v), k, nom);
    StatsEntryGet(d, k, nom);
  }

  /** The name given to a fresh entry does not change its counts. */
  lemma {:induction false} StatsEntryName(d: Dicts.Dict<string, Stats>, k: string, nom: string, nom': string)
    ensures StatsEntry(d, k, nom).totalBesoins == StatsEntry(d, k, nom').totalBesoins
  {
    if d != [] && d[0].0 != k {
      StatsEntryName(d[1..], k, nom, nom');
    }
  }

  /** Setting the rates does not change the counts. */
  lemma {:induction false} RatedEntry(d: Dicts.Dict<string, Stats>, k: string, nom: string)
    ensures StatsEntry(Rated(d), k, nom).totalBesoins == StatsEntry(d, k, nom).totalBesoins
  {
    if d != [] {
      assert Rated(d)[1..] == Rated(d[1..]);
      RatedEntry(d[1..], k, nom);
    }
  }

  /** The three rates of an entry add up to 100. */
  lemma RatesSumTo100(s: Stats)
    requires RatedBalanced(s)
    ensures s.tauxCouverture + s.tauxPartiel + s.tauxNonCouvert == 100.0
  {
    SharesSum(s.tauxCouverture, s.tauxPartiel, s.tauxNonCouvert, s.totalBesoins as real,
              s.totalCouverts as real, s.totalPartiels as real, s.totalNonCouverts as real);
  }

  lemma SharesSum(a: real, b: real, c: real, n: real, x: real, y: real, z: real)
    requires n > 0.0 && x + y + z == n
    requires a * n == x * 100.0 && b * n == y * 100.0 && c * n == z * 100.0
    ensures a + b + c == 100.0
  {
    var sum := a + b + c;
    calc {
      sum * n;
      a * n + b * n + c * n;
      x * 100.0 + y * 100.0 + z * 100.0;
      (x + y + z) * 100.0;
      n * 100.0;
    }
    assert (sum - 100.0) * n == 0.0;
  }

  // ---------------------------------------------------------------------
  // Analysis of all besoins

  /** A besoin with its state set back to unknown. */
  function Erase(b: Besoin): Besoin { b.(etat := Besoins.Inconnu) }

  function Erased(s: seq<Besoin>): (r: seq<Besoin>)
    ensures |r| == |s| && forall i :: 0 <= i < |s| ==> r[i] == Erase(s[i])
  {
    seq(|s|, i requires 0 <= i < |s| => Erase(s[i]))
  }

  /** The copies `analyze_besoins` makes of one material's besoins: in
      due-date order, each with the state its coverage gives it. */
  function Labelled(bs: seq<Besoin>, pool: real): (r: seq<Besoin>)
    ensures |r| == |bs|
  {
    var sorted := ByEcheance(bs);
    seq(|sorted|, i requires 0 <= i < |sorted| => sorted[i].(etat := StringToEtat(LabelAt(sorted, pool, i))))
  }

  /** The copies of every group, group after group, each served from its
      material's pool. */
  function Analysed(groups: BesoinsRepository.Groups, stocks: seq<Stocks.Stock>,
                    raps: seq<Rappatriements.Rappatriement>): seq<Besoin>
  {
    if groups == [] then []
    else
      var last := groups[|groups| - 1];
      Analysed(groups[..|groups| - 1], stocks, raps) + Labelled(last.1, CoverageStockOf(stocks, raps, last.0))
  }

  /** `analyze_besoins`: copies of the besoins whose state is unknown, each
      with its computed coverage state, in due-date order. The stores are
      only read: nothing is written back. */
  method AnalyzeBesoins(besoinsRepo: Repository.Store<Besoin>, stocksRepo: Repository.Store<Stocks.Stock>,
                        rappatriementsRepo: Repository.Store<Rappatriements.Rappatriement>)
    returns (r: seq<Besoin>)
    ensures r == BesoinsRepository.SortBesoinsByEcheance(
                   Analysed(BesoinsRepository.Grouped(BesoinsRepository.BesoinsByEtat(besoinsRepo.data, Besoins.Inconnu)),
                            stocksRepo.data, rappatriementsRepo.data), false)
    ensures Sorting.Sorted(r, BesoinsRepository.EcheanceOf, false)
    ensures forall b :: b in r ==> b.etat != Besoins.Inconnu
    ensures multiset(Erased(r)) == multiset(BesoinsRepository.BesoinsByEtat(besoinsRepo.data, Besoins.Inconnu))
  {
    var all := BesoinsRepository.BesoinsByEtat(besoinsRepo.data, Besoins.Inconnu);
    var groups := BesoinsRepository.GroupBesoinsByMatiere(all);
    var analyses: seq<Besoin> := [];
    for i := 0 to |groups|
      invariant analyses == Analysed(groups[..i], stocksRepo.data, rappatriementsRepo.data)
    {
      var (code, besoinsMatiere) := groups[i];
      var stock := GetCoverageStock(stocksRepo.data, rappatriementsRepo.data, code);
      var results := ChronologicalCoverage(besoinsMatiere, stock);
      var copies := Copies(results, besoinsMatiere, stock);
      analyses := analyses + copies;
      AnalysedSnoc(groups, i, stocksRepo.data, rappatriementsRepo.data);
    }
    assert groups[..|groups|] == groups;
    r := BesoinsRepository.SortBesoinsByEcheance(analyses, false);
    SortedCopies(groups, all, stocksRepo.data, rappatriementsRepo.data);
  }

  /** The copying loop of `analyze_besoins` for one material. */
  method Copies(results: seq<CoverageResult>, ghost bs: seq<Besoin>, ghost pool: real) returns (copies: seq<Besoin>)
    requires IsCoveragePass(results, ByEcheance(bs), pool)
    ensures copies == Labelled(bs, pool)
  {
    copies := [];
    for j := 0 to |results|
      invariant copies == Labelled(bs, pool)[..j]
    {
      var result := results[j];
      copies := copies + [result.besoin.(etat := StringToEtat(result.etat))];
      assert Labelled(bs, pool)[..j + 1] == Labelled(bs, pool)[..j] + [Labelled(bs, pool)[j]];
    }
    assert Labelled(bs, pool)[..|results|] == Labelled(bs, pool);
  }

  /** The sorted copies carry computed states and, erased, are the besoins
      that were grouped. */
  lemma SortedCopies(groups: BesoinsRepository.Groups, all: seq<Besoin>, stocks: seq<Stocks.Stock>,
                     raps: seq<Rappatriements.Rappatriement>)
    requires forall b :: b in all ==> b.etat == Besoins.Inconnu
    requires multiset(Dicts.Flatten(groups)) == multiset(all)
    ensures var r := BesoinsRepository.SortBesoinsByEcheance(Analysed(groups, stocks, raps), false);
            && (forall b :: b in r ==> b.etat != Besoins.Inconnu)
            && multiset(Erased(r)) == multiset(all)
  {
    var analyses := Analysed(groups, stocks, raps);
    var r := BesoinsRepository.SortBesoinsByEcheance(analyses, false);
    AnalysedLabels(groups, stocks, raps);
    forall b | b in Dicts.Flatten(groups) ensures b.etat == Besoins.Inconnu {
      assert b in multiset(all);
    }
    AnalysedErased(groups, stocks, raps);
    ErasedPermutation(r, analyses);
    forall b | b in r ensures b.etat != Besoins.Inconnu {
      assert b in multiset(analyses);
    }
  }

  lemma AnalysedSnoc(groups: BesoinsRepository.Groups, i: nat, stocks: seq<Stocks.Stock>, raps: seq<Rappatriements.Rappatriement>)
    requires i < |groups|
    ensures Analysed(groups[..i + 1], stocks, raps)
         == Analysed(groups[..i], stocks, raps) + Labelled(groups[i].1, CoverageStockOf(stocks, raps, groups[i].0))
  {
    assert groups[..i + 1][..i] == groups[..i];
  }

  /** Every copy carries a computed state. */
  lemma {:induction false} AnalysedLabels(groups: BesoinsRepository.Groups, stocks: seq<Stocks.Stock>,
                                          raps: seq<Rappatriements.Rappatriement>)
    ensures forall b :: b in Analysed(groups, stocks, raps) ==> b.etat != Besoins.Inconnu
    decreases |groups|
  {
    if groups != [] {
      AnalysedLabels(groups[..|groups| - 1], stocks, raps);
    }
  }

  /** Setting the states back to unknown gives back, element for element,
      the besoins of the groups, provided their states were unknown. */
  lemma {:induction false} AnalysedErased(groups: BesoinsRepository.Groups, stocks: seq<Stocks.Stock>,
                                          raps: seq<Rappatriements.Rappatriement>)
    requires forall b :: b in Dicts.Flatten(groups) ==> b.etat == Besoins.Inconnu
    ensures multiset(Erased(Analysed(groups, stocks, raps))) == multiset(Dicts.Flatten(groups))
    decreases |groups|
  {
    if groups != [] {
      var init, last := groups[..|groups| - 1], groups[|groups| - 1];
      FlattenSnoc(groups);
      AnalysedErased(init, stocks, raps);
      var a := Analysed(init, stocks, raps);
      var l := Labelled(last.1, CoverageStockOf(stocks, raps, last.0));
      ErasedAppend(a, l);
      LabelledErased(last.1, CoverageStockOf(stocks, raps, last.0));
    }
  }

  lemma FlattenSnoc(groups: BesoinsRepository.Groups)
    requires groups != []
    ensures Dicts.Flatten(groups) == Dicts.Flatten(groups[..|groups| - 1]) + groups[|groups| - 1].1
  {
    var init, last := groups[..|groups| - 1], groups[|groups| - 1];
    assert groups == init + [last];
    Dicts.FlattenAppend(init, [last]);
    assert Dicts.Flatten([last]) == last.1 + Dicts.Flatten([last][1..]);
  }

  /** The copies of a group whose states were unknown are, once erased, the
      group in due-date order. */
  lemma LabelledErased(bs: seq<Besoin>, pool: real)
    requires forall b :: b in bs ==> b.etat == Besoins.Inconnu
    ensures multiset(Erased(Labelled(bs, pool))) == multiset(bs)
  {
    var sorted := ByEcheance(bs);
    forall i | 0 <= i < |sorted| ensures Erased(Labelled(bs, pool))[i] == sorted[i] {
      assert sorted[i] in multiset(bs);
    }
    assert Erased(Labelled(bs, pool)) == sorted;
  }

  lemma ErasedAppend(a: seq<Besoin>, b: seq<Besoin>)
    ensures Erased(a + b) == Erased(a) + Erased(b)
  {
  }

  /** Erasing states maps equal multisets to equal multisets. */
  lemma {:induction false} ErasedPermutation(a: seq<Besoin>, b: seq<Besoin>)
    requires multiset(a) == multiset(b)
    ensures multiset(Erased(a)) == multiset(Erased(b))
    decreases |a|
  {
    if a != [] {
      assert a[0] in multiset(b);
      var k :| 0 <= k < |b| && b[k] == a[0];
      Seqs.MultisetRemove(a, b, k);
      ErasedPermutation(a[1..], b[..k] + b[k + 1..]);
      ErasedMatch(a, b, k);
    } else {
      assert |b| == |multiset(b)| == 0;
    }
  }

  /** Matching the first element of `a` with the `k`-th of `b` extends an
      equality of the erased rests to the whole lists. */
  lemma ErasedMatch(a: seq<Besoin>, b: seq<Besoin>, k: nat)
    requires a != [] && k < |b| && b[k] == a[0]
    requires multiset(Erased(a[1..])) == multiset(Erased(b[..k] + b[k + 1..]))
    ensures multiset(Erased(a)) == multiset(Erased(b))
  {
    ErasedFirst(a);
    ErasedRemove(b, k);
    Seqs.SameAddition(multiset(Erased(a)), multiset(Erased(a[1..])),
                      multiset(Erased(b)), multiset(Erased(b[..k] + b[k + 1..])), Erase(a[0]));
  }

  lemma ErasedFirst(s: seq<Besoin>)
    requires s != []
    ensures multiset(Erased(s)) == multiset(Erased(s[1..])) + multiset{Erase(s[0])}
  {
    assert Erased(s) == [Erase(s[0])] + Erased(s[1..]);
  }

  /** Erasing a list counts, besides the erasure of its `k`-th element, the
      erasure of the rest. */
  lemma ErasedRemove(s: seq<Besoin>, k: nat)
    requires k < |s|
    ensures multiset(Erased(s)) == multiset(Erased(s[..k] + s[k + 1..])) + multiset{Erase(s[k])}
  {
    assert s == s[..k] + [s[k]] + s[k + 1..];
    ErasedAppend(s[..k] + [s[k]], s[k + 1..]);
    ErasedAppend(s[..k], [s[k]]);
    ErasedAppend(s[..k], s[k + 1..]);
  }

  // ---------------------------------------------------------------------
  // Empty analysis

  /** `_create_empty_analyse`: the analysis of a material with no besoin. */
  function EmptyAnalyse(codeMp: string, dateInitiale: Dates.DateTime, horizonDays: int): (a: Analyse.AnalyseCouverture)
    ensures a.analyseMatiere.Some? && a.analyseMatiere.value.codeMp == codeMp
    ensures a.analyseMatiere.value.nomMatiere == Besoins.UnknownName
    ensures a.analyseMatiere.value.couvertureParBesoin == []
    ensures IsChronology(a.analyseMatiere.value.analyseChronologique, [], 0.0)
    ensures Analyse.TotalBesoins(a) == 0 && Analyse.TotalCouverts(a) == 0 && Analyse.TauxCouverture(a) == 0.0
    ensures forall m :: m in Analyse.Analyses(a) ==> Analyse.Consistent(m)
    ensures a.dateLimite - a.dateInitiale == horizonDays * Dates.SecondsPerDay
  {
    var vide := Analyse.AnalyseMatiere(
      codeMp, Besoins.UnknownName, 0, 0, 0.0, 0.0, 0.0, [], 0.0, 0.0, 0.0, 0.0, 0.0, [],
      Analyse.AnalyseChronologique([], None, 0.0, 0.0));
    Analyse.AnalyseCouverture(horizonDays, dateInitiale, Dates.AddDays(dateInitiale, horizonDays), [], [], Some(vide))
  }
}
