/** The results of a coverage analysis (`models/analyse.py`) and the rate
    helpers of `AnalyseCouverture`. Mappings keyed by warehouse or material
    code are association lists in insertion order. */
module Analyse {
  import opened Wrappers
  import Seqs
  import Dicts
  import Dates
  import Besoins

  /** How one demand event is covered. */
  datatype CouvertureBesoin = CouvertureBesoin(
    besoin: Besoins.Besoin,
    quantiteBesoin: real,
    quantiteStockInternes: real,
    stocksExternes: Dicts.Dict<string, real>,
    quantiteReceptions: real,
    quantiteRappatriements: real,
    quantiteDisponibleCouverture: real,
    etatCouverture: Besoins.Etat,
    pourcentageCouverture: real,
    stockRestantApresConsommation: real)

  /** One step of the chronological pass. */
  datatype EtapeChronologique = EtapeChronologique(
    echeance: string,
    quantiteBesoin: real,
    stockAvant: real,
    stockApres: real,
    etat: Besoins.Etat)

  datatype PremierBesoinNonCouvert = PremierBesoinNonCouvert(
    index: nat,
    echeance: string,
    quantiteBesoin: real,
    stockRestant: real,
    quantiteManquante: real)

  datatype AnalyseChronologique = AnalyseChronologique(
    couvertureChronologique: seq<EtapeChronologique>,
    premierBesoinNonCouvert: Option<PremierBesoinNonCouvert>,
    stockInitial: real,
    stockFinal: real)

  /** The analysis of one raw material. */
  datatype AnalyseMatiere = AnalyseMatiere(
    codeMp: string,
    nomMatiere: string,
    totalBesoins: int,
    totalCouverts: int,
    tauxCouverture: real,
    quantiteBesoinTotale: real,
    quantiteStockInternes: real,
    stocksExternes: Dicts.Dict<string, real>,
    quantiteReceptions: real,
    quantiteRappatriements: real,
    quantiteTotaleDisponible: real,
    stockCouvertureDisponible: real,
    stockManquant: real,
    couvertureParBesoin: seq<CouvertureBesoin>,
    analyseChronologique: AnalyseChronologique)

  datatype StatistiquesMatiere = StatistiquesMatiere(
    nom: string,
    totalBesoins: int,
    totalCouverts: int,
    totalPartiels: int,
    totalNonCouverts: int,
    quantiteBesoinTotale: real,
    quantiteDisponibleTotale: real,
    stocksExternes: Dicts.Dict<string, real>,
    quantiteRappatriements: real,
    tauxCouverture: real,
    tauxPartiel: real,
    tauxNonCouvert: real)

  /** A whole analysis: either per material (`analyseParMatiere`) or for a
      single material (`analyseMatiere`). */
  datatype AnalyseCouverture = AnalyseCouverture(
    horizonJours: int,
    dateInitiale: Dates.DateTime,
    dateLimite: Dates.DateTime,
    analyseParMatiere: Dicts.Dict<string, AnalyseMatiere>,
    statistiquesParMatiere: Dicts.Dict<string, StatistiquesMatiere>,
    analyseMatiere: Option<AnalyseMatiere>)

  /** A material analysis whose covered count is within its demand count. */
  predicate Consistent(m: AnalyseMatiere) {
    0 <= m.totalCouverts <= m.totalBesoins
  }

  /** The analyses `total_besoins` and `total_couverts` add up. */
  function Analyses(a: AnalyseCouverture): seq<AnalyseMatiere> {
    if a.analyseMatiere.Some? then [a.analyseMatiere.value] else Dicts.Values(a.analyseParMatiere)
  }

  function BesoinsOf(m: AnalyseMatiere): int { m.totalBesoins }
  function CouvertsOf(m: AnalyseMatiere): int { m.totalCouverts }

  /** `total_besoins`: the single-material count when there is one,
      otherwise the sum over the per-material analyses. */
  function TotalBesoins(a: AnalyseCouverture): (n: int)
    ensures a.analyseMatiere.Some? ==> n == a.analyseMatiere.value.totalBesoins
    ensures a.analyseMatiere.None? ==> n == Seqs.SumInt(Dicts.Values(a.analyseParMatiere), BesoinsOf)
  {
    if a.analyseMatiere.Some? then a.analyseMatiere.value.totalBesoins
    else Seqs.SumInt(Dicts.Values(a.analyseParMatiere), BesoinsOf)
  }

  /** `total_couverts`, by the same single-or-sum rule. */
  function TotalCouverts(a: AnalyseCouverture): (n: int)
    ensures a.analyseMatiere.Some? ==> n == a.analyseMatiere.value.totalCouverts
    ensures a.analyseMatiere.None? ==> n == Seqs.SumInt(Dicts.Values(a.analyseParMatiere), CouvertsOf)
  {
    if a.analyseMatiere.Some? then a.analyseMatiere.value.totalCouverts
    else Seqs.SumInt(Dicts.Values(a.analyseParMatiere), CouvertsOf)
  }

  /** `taux_couverture`: 0 without demand, otherwise the covered share in percent. */
  function TauxCouverture(a: AnalyseCouverture): (t: real)
    ensures TotalBesoins(a) == 0 ==> t == 0.0
    ensures TotalBesoins(a) != 0 ==> t * (TotalBesoins(a) as real) == (TotalCouverts(a) as real) * 100.0
  {
    var total := TotalBesoins(a);
    if total == 0 then 0.0 else (TotalCouverts(a) as real) / (total as real) * 100.0
  }

  /** When every analysis counts at most as many covered events as events,
      so does the whole. */
  lemma TotalCouvertsWithinTotal(a: AnalyseCouverture)
    requires forall m :: m in Analyses(a) ==> Consistent(m)
    ensures 0 <= TotalCouverts(a) <= TotalBesoins(a)
  {
    if a.analyseMatiere.None? {
      var ms := Dicts.Values(a.analyseParMatiere);
      assert Analyses(a) == ms;
      forall m | m in ms ensures 0 <= CouvertsOf(m) <= BesoinsOf(m) {
        assert Consistent(m);
      }
      Seqs.SumIntNonNegative(ms, CouvertsOf);
      Seqs.SumIntMonotone(ms, CouvertsOf, BesoinsOf);
    } else {
      assert a.analyseMatiere.value in Analyses(a);
    }
  }

  /** The coverage rate is a percentage. */
  lemma TauxCouvertureIsPercentage(a: AnalyseCouverture)
    requires forall m :: m in Analyses(a) ==> Consistent(m)
    ensures 0.0 <= TauxCouverture(a) <= 100.0
    ensures TauxCouverture(a) == 100.0 <==> TotalBesoins(a) > 0 && TotalCouverts(a) == TotalBesoins(a)
  {
    TotalCouvertsWithinTotal(a);
    var total := TotalBesoins(a);
    if total != 0 {
      var c := TotalCouverts(a) as real;
      var n := total as real;
      var t := TauxCouverture(a);
      assert t * n == c * 100.0;
      assert 0.0 <= c <= n;
      assert n > 0.0;
      assert t == c / n * 100.0;
      assert c / n <= 1.0;
      assert t == 100.0 <==> c == n by {
        if t == 100.0 { assert c * 100.0 == n * 100.0; }
        if c == n { assert t * n == 100.0 * n; }
      }
    }
  }
}
