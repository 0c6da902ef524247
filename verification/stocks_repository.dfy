/** Stock queries (`StocksRepository`). Warehouse "30" never shows in a
    listing; a warehouse whose code starts with "EX" is external, any other
    is internal. Each query takes the stored stock lines, as `get_all`
    returns them. */
module StocksRepository {
  import opened Wrappers
  import Text
  import Seqs
  import Raw
  import Besoins
  import Dates
  import Stocks
  import Repository

  type Stock = Stocks.Stock

  /** The warehouse every listing leaves out. */
  const ExcludedMagasin: string := "30"

  predicate Listed(s: Stock) {
    s.magasin != ExcludedMagasin
  }

  /** `magasin.startswith("EX")` */
  predicate IsExternal(s: Stock) {
    Text.StartsWith(s.magasin, "EX")
  }

  predicate IsInternal(s: Stock) {
    !IsExternal(s)
  }

  /** `stock.matiere and stock.matiere.code_mp == code` */
  predicate OfMatiere(s: Stock, code: string) {
    s.matiere.Some? && s.matiere.value.codeMp == code
  }

  function QuantiteOf(s: Stock): real { s.quantite }

  /** `get_stocks_list`: every stock line outside warehouse "30", in order. */
  function StocksList(data: seq<Stock>): (r: seq<Stock>)
    ensures forall s :: s in r <==> s in data && s.magasin != "30"
  {
    Seqs.Filter(data, Listed)
  }

  /** `get_internal_stocks` */
  function InternalStocks(data: seq<Stock>): (r: seq<Stock>)
    ensures forall s :: s in r <==> s in data && s.magasin != "30" && !Text.StartsWith(s.magasin, "EX")
  {
    Seqs.Filter(StocksList(data), IsInternal)
  }

  /** `get_external_stocks` */
  function ExternalStocks(data: seq<Stock>): (r: seq<Stock>)
    ensures forall s :: s in r <==> s in data && s.magasin != "30" && Text.StartsWith(s.magasin, "EX")
  {
    Seqs.Filter(StocksList(data), IsExternal)
  }

  /** `get_stocks_by_matiere` */
  function StocksByMatiere(data: seq<Stock>, code: string): (r: seq<Stock>)
    ensures forall s :: s in r <==>
              s in data && s.matiere.Some? && s.matiere.value.codeMp == code && s.magasin != "30"
  {
    Seqs.Filter(data, s => OfMatiere(s, code) && Listed(s))
  }

  /** `get_internal_stocks_by_matiere` */
  function InternalStocksByMatiere(data: seq<Stock>, code: string): (r: seq<Stock>)
    ensures forall s :: s in r <==> s in StocksByMatiere(data, code) && !Text.StartsWith(s.magasin, "EX")
  {
    Seqs.Filter(StocksByMatiere(data, code), IsInternal)
  }

  /** `get_external_stocks_by_matiere` */
  function ExternalStocksByMatiere(data: seq<Stock>, code: string): (r: seq<Stock>)
    ensures forall s :: s in r <==> s in StocksByMatiere(data, code) && Text.StartsWith(s.magasin, "EX")
  {
    Seqs.Filter(StocksByMatiere(data, code), IsExternal)
  }

  /** Internal and external stocks split the listing: every listed line is
      in exactly one of them, as often as it is listed. */
  lemma ListingPartition(data: seq<Stock>)
    ensures multiset(StocksList(data)) == multiset(InternalStocks(data)) + multiset(ExternalStocks(data))
    ensures forall s :: !(s in InternalStocks(data) && s in ExternalStocks(data))
  {
    var l := StocksList(data);
    assert forall s :: multiset(InternalStocks(data))[s] == if IsInternal(s) then multiset(l)[s] else 0;
    assert forall s :: multiset(ExternalStocks(data))[s] == if IsExternal(s) then multiset(l)[s] else 0;
  }

  /** The same split for the lines of one material. */
  lemma ByMatierePartition(data: seq<Stock>, code: string)
    ensures multiset(StocksByMatiere(data, code)) ==
              multiset(InternalStocksByMatiere(data, code)) + multiset(ExternalStocksByMatiere(data, code))
    ensures forall s :: !(s in InternalStocksByMatiere(data, code) && s in ExternalStocksByMatiere(data, code))
  {
    var l := StocksByMatiere(data, code);
    assert forall s :: multiset(InternalStocksByMatiere(data, code))[s] == if IsInternal(s) then multiset(l)[s] else 0;
    assert forall s :: multiset(ExternalStocksByMatiere(data, code))[s] == if IsExternal(s) then multiset(l)[s] else 0;
  }

  /** The internal lines of a material, taken through `get_stocks_by_matiere`,
      are the lines of that material among the internal stocks, in the same
      order. */
  lemma InternalByMatiereAgrees(data: seq<Stock>, code: string)
    ensures InternalStocksByMatiere(data, code) == Seqs.Filter(InternalStocks(data), s => OfMatiere(s, code))
  {
    var both := s => OfMatiere(s, code) && Listed(s) && IsInternal(s);
    Seqs.FilterFilter(data, s => OfMatiere(s, code) && Listed(s), IsInternal, both);
    Seqs.FilterFilter(data, Listed, IsInternal, s => Listed(s) && IsInternal(s));
    Seqs.FilterFilter(data, s => Listed(s) && IsInternal(s), s => OfMatiere(s, code), both);
    Seqs.FilterSame(Seqs.Filter(data, Listed), IsInternal, IsInternal);
  }

  /** What a stock line adds to a total over the listed lines of material
      `code` that `pick` accepts: its quantity, or nothing. */
  function Share(code: string, pick: Stock -> bool): Stock -> real {
    s => if OfMatiere(s, code) && Listed(s) && pick(s) then s.quantite else 0.0
  }

  /** `get_total_internal_quantity_by_matiere`: the quantities of the listed
      internal lines of the material, summed over the whole store. */
  function TotalInternalQuantityByMatiere(data: seq<Stock>, code: string): (r: real)
    ensures r == Seqs.Sum(data, Share(code, IsInternal))
  {
    var inside := s => if IsInternal(s) then s.quantite else 0.0;
    Seqs.SumFilter(StocksByMatiere(data, code), IsInternal, QuantiteOf, inside);
    Seqs.SumFilter(data, s => OfMatiere(s, code) && Listed(s), inside, Share(code, IsInternal));
    Seqs.Sum(InternalStocksByMatiere(data, code), QuantiteOf)
  }

  /** `get_total_external_quantity_by_matiere`: the quantities of the listed
      external lines of the material, summed over the whole store. */
  function TotalExternalQuantityByMatiere(data: seq<Stock>, code: string): (r: real)
    ensures r == Seqs.Sum(data, Share(code, IsExternal))
  {
    var outside := s => if IsExternal(s) then s.quantite else 0.0;
    Seqs.SumFilter(StocksByMatiere(data, code), IsExternal, QuantiteOf, outside);
    Seqs.SumFilter(data, s => OfMatiere(s, code) && Listed(s), outside, Share(code, IsExternal));
    Seqs.Sum(ExternalStocksByMatiere(data, code), QuantiteOf)
  }

  /** `get_total_quantity_by_matiere`: the total of a material is its
      internal total plus its external total. */
  function TotalQuantityByMatiere(data: seq<Stock>, code: string): (r: real)
    ensures r == TotalInternalQuantityByMatiere(data, code) + TotalExternalQuantityByMatiere(data, code)
  {
    Seqs.SumPartition(StocksByMatiere(data, code), QuantiteOf, IsInternal, IsExternal);
    Seqs.Sum(StocksByMatiere(data, code), QuantiteOf)
  }

  /** Validated stock lines hold no negative quantity, so neither does any total. */
  lemma TotalQuantityNonNegative(data: seq<Stock>, code: string)
    requires forall s :: s in data ==> s.quantite >= 0.0
    ensures TotalInternalQuantityByMatiere(data, code) >= 0.0
    ensures TotalExternalQuantityByMatiere(data, code) >= 0.0
    ensures TotalQuantityByMatiere(data, code) >= 0.0
  {
    Seqs.SumNonNegative(InternalStocksByMatiere(data, code), QuantiteOf);
    Seqs.SumNonNegative(ExternalStocksByMatiere(data, code), QuantiteOf);
  }

  /** The value of a stock attribute, as `getattr` returns it. */
  datatype Attr =
    | AText(text: string)
    | AReal(r: real)
    | AOptText(opt: Option<string>)
    | ANumber(n: Raw.Number)
    | AOptDate(d: Option<Dates.DateTime>)
    | AMatiere(m: Option<Besoins.Matiere>)

  /** `getattr(stock, key)`, or `None` for a name the stock does not have;
      the names it finds are exactly the attribute names. */
  function Attribute(s: Stock, key: string): (r: Option<Attr>)
    ensures r.Some? <==> IsAttribute(key)
  {
    match key
    case "id" => Some(AText(s.id))
    case "article" => Some(AText(s.article))
    case "libelle_article" => Some(AText(s.libelleArticle))
    case "du" => Some(AOptText(s.du))
    case "quantite" => Some(AReal(s.quantite))
    case "udm" => Some(AText(s.udm))
    case "statut_lot" => Some(AText(s.statutLot))
    case "division" => Some(AText(s.division))
    case "magasin" => Some(AText(s.magasin))
    case "emplacement" => Some(AText(s.emplacement))
    case "contenant" => Some(AText(s.contenant))
    case "statut_proprete" => Some(AText(s.statutProprete))
    case "reutilisable" => Some(AText(s.reutilisable))
    case "statut_contenant" => Some(AText(s.statutContenant))
    case "classification" => Some(AOptText(s.classification))
    case "restriction" => Some(AOptText(s.restriction))
    case "lot_fournisseur" => Some(AOptText(s.lotFournisseur))
    case "capacite" => Some(ANumber(s.capacite))
    case "commentaire" => Some(AOptText(s.commentaire))
    case "date_creation" => Some(AOptDate(s.dateCreation))
    case "dluo" => Some(AOptDate(s.dluo))
    case "matiere" => Some(AMatiere(s.matiere))
    case _ => None
  }

  /** The attribute names of a stock line. */
  predicate IsAttribute(key: string) {
    key in {"id", "article", "libelle_article", "du", "quantite", "udm", "statut_lot", "division",
            "magasin", "emplacement", "contenant", "statut_proprete", "reutilisable",
            "statut_contenant", "classification", "restriction", "lot_fournisseur", "capacite",
            "commentaire", "date_creation", "dluo", "matiere"}
  }

  /** The stocks the first `k` criteria let through. */
  function Passing(stocks: seq<Stock>, criteria: seq<Repository.Criterion<Attr>>, k: nat): seq<Stock>
    requires k <= |criteria|
  {
    Repository.Passing(stocks, Attribute, criteria, k)
  }

  /** Whether `filter_stocks` raises: a criterion names an attribute a
      stock does not have while some stock is still left to compare. */
  predicate FilterRaises(stocks: seq<Stock>, criteria: seq<Repository.Criterion<Attr>>) {
    RaisesWithin(stocks, criteria, |criteria|)
  }

  /** One of the first `n` criteria raises. */
  predicate RaisesWithin(stocks: seq<Stock>, criteria: seq<Repository.Criterion<Attr>>, n: nat)
    requires n <= |criteria|
  {
    n > 0 && (RaisesWithin(stocks, criteria, n - 1) || RaisesAt(stocks, criteria, n - 1))
  }

  lemma {:induction false} RaisesWithinGrows(stocks: seq<Stock>, criteria: seq<Repository.Criterion<Attr>>, m: nat, n: nat)
    requires m <= n <= |criteria|
    requires RaisesWithin(stocks, criteria, m)
    ensures RaisesWithin(stocks, criteria, n)
    decreases n - m
  {
    if m < n {
      RaisesWithinGrows(stocks, criteria, m + 1, n);
    }
  }

  /** Criterion `k` names an unknown attribute and some stock reaches it. */
  predicate RaisesAt(stocks: seq<Stock>, criteria: seq<Repository.Criterion<Attr>>, k: nat)
    requires k < |criteria|
  {
    criteria[k].value.Some? && !IsAttribute(criteria[k].key) && Passing(stocks, criteria, k) != []
  }

  /** `filter_stocks(stocks, **filters)`: the criteria are applied in turn,
      a `None` value being skipped; what is left is the stocks equal to
      every given value, in their order. Comparing an attribute the stock
      does not have raises, which is the error result here. */
  method FilterStocks(stocks: seq<Stock>, criteria: seq<Repository.Criterion<Attr>>) returns (r: Result<seq<Stock>>)
    ensures r.Err? <==> FilterRaises(stocks, criteria)
    ensures r.Ok? ==> r.value == Seqs.Filter(stocks, x => Repository.MatchesAll(x, Attribute, criteria))
  {
    var filtered := stocks;
    Repository.PassingNone(stocks, Attribute, criteria);
    for k := 0 to |criteria|
      invariant filtered == Passing(stocks, criteria, k)
      invariant !RaisesWithin(stocks, criteria, k)
    {
      var raises;
      raises, filtered := ApplyCriterion(stocks, criteria, k, filtered);
      if raises {
        RaisesWithinGrows(stocks, criteria, k + 1, |criteria|);
        return Err(UnknownAttribute);
      }
    }
    FilterStocksDone(stocks, criteria, filtered);
    r := Ok(filtered);
  }

  /** When every criterion has been applied without raising, what is left
      is the stocks matching them all. */
  lemma FilterStocksDone(stocks: seq<Stock>, criteria: seq<Repository.Criterion<Attr>>, filtered: seq<Stock>)
    requires filtered == Passing(stocks, criteria, |criteria|)
    requires !RaisesWithin(stocks, criteria, |criteria|)
    ensures !FilterRaises(stocks, criteria)
    ensures filtered == Seqs.Filter(stocks, x => Repository.MatchesAll(x, Attribute, criteria))
  {
    Repository.PassingAll(stocks, Attribute, criteria);
  }

  /** One pass of the loop of `filter_stocks`: criterion `k` raises, or
      narrows the stocks the criteria before it left. */
  method ApplyCriterion(stocks: seq<Stock>, criteria: seq<Repository.Criterion<Attr>>, k: nat, filtered: seq<Stock>)
    returns (raises: bool, filtered': seq<Stock>)
    requires k < |criteria| && filtered == Passing(stocks, criteria, k)
    requires !RaisesWithin(stocks, criteria, k)
    ensures raises <==> RaisesAt(stocks, criteria, k)
    ensures raises ==> RaisesWithin(stocks, criteria, k + 1)
    ensures !raises ==> filtered' == Passing(stocks, criteria, k + 1) && !RaisesWithin(stocks, criteria, k + 1)
  {
    var c := criteria[k];
    if c.value.Some? && !IsAttribute(c.key) && filtered != [] {
      return true, filtered;
    }
    FilterStocksStep(stocks, criteria, k);
    raises, filtered' := false, filtered;
    if c.value.Some? {
      filtered' := Repository.WithValue(filtered, Attribute, c.key, c.value.value);
    }
  }

  const UnknownAttribute: string := "AttributeError: unknown stock attribute"

  /** A criterion that does not raise narrows the stocks by its value. */
  lemma FilterStocksStep(stocks: seq<Stock>, criteria: seq<Repository.Criterion<Attr>>, k: nat)
    requires k < |criteria|
    requires !RaisesWithin(stocks, criteria, k)
    requires !(criteria[k].value.Some? && !IsAttribute(criteria[k].key) && Passing(stocks, criteria, k) != [])
    ensures !RaisesWithin(stocks, criteria, k + 1)
    ensures Passing(stocks, criteria, k + 1) ==
              if criteria[k].value.None? then Passing(stocks, criteria, k)
              else Repository.WithValue(Passing(stocks, criteria, k), Attribute, criteria[k].key, criteria[k].value.value)
  {
    Repository.FilterStep(stocks, Attribute, criteria, k);
  }

  /** The criteria of `filter_stocks_advanced`; `None` means "any". */
  datatype Criteria = Criteria(
    codeMp: Option<string>,
    nomMatiere: Option<string>,
    magasin: Option<string>,
    statutLot: Option<string>,
    quantiteMin: Option<real>,
    quantiteMax: Option<real>,
    lot: Option<string>,
    interneOnly: Option<bool>)

  /** The tests `filter_stocks_advanced` makes before the lot test. */
  predicate PassesBeforeLot(s: Stock, c: Criteria) {
    Listed(s)
    && (c.codeMp.None? || OfMatiere(s, c.codeMp.value))
    && (c.nomMatiere.None? || (s.matiere.Some? && Text.ContainsIgnoreCase(c.nomMatiere.value, s.matiere.value.nom)))
    && (c.magasin.None? || s.magasin == c.magasin.value)
    && (c.statutLot.None? || s.statutLot == c.statutLot.value)
    && (c.quantiteMin.None? || s.quantite >= c.quantiteMin.value)
    && (c.quantiteMax.None? || s.quantite <= c.quantiteMax.value)
  }

  /** The internal/external test. */
  predicate PassesType(s: Stock, c: Criteria) {
    c.interneOnly.None? || (if c.interneOnly.value then IsInternal(s) else IsExternal(s))
  }

  /** `filter_stocks_advanced` as written: the lot test reads `s.lot`, an
      attribute stock lines do not have, so a lot criterion raises as soon
      as any stock line is left to test. */
  function FilterStocksAdvancedAsWritten(data: seq<Stock>, c: Criteria): (r: Result<seq<Stock>>)
    ensures r.Err? <==> c.lot.Some? && exists s :: s in data && PassesBeforeLot(s, c)
    ensures r.Ok? ==> forall s :: s in r.value <==> s in data && PassesBeforeLot(s, c) && PassesType(s, c)
  {
    var before := Seqs.Filter(data, s => PassesBeforeLot(s, c));
    if c.lot.Some? && before != [] then
      assert before[0] in data && PassesBeforeLot(before[0], c);
      Err("AttributeError: 'Stock' object has no attribute 'lot'")
    else
      Ok(Seqs.Filter(before, s => PassesType(s, c)))
  }

  /** The lot test as intended: against the supplier lot. */
  predicate PassesLot(s: Stock, c: Criteria) {
    c.lot.None? || s.lotFournisseur == c.lot
  }

  /** `filter_stocks_advanced` with the lot test made against the supplier
      lot: warehouse "30" is always left out, each given criterion must hold
      and `None` criteria are ignored; the order of the stored lines is kept. */
  function FilterStocksAdvanced(data: seq<Stock>, c: Criteria): (r: seq<Stock>)
    ensures forall s :: s in r <==> s in data && PassesBeforeLot(s, c) && PassesLot(s, c) && PassesType(s, c)
    ensures forall s :: s in r ==> s.magasin != "30"
    ensures c.interneOnly == Some(true) ==> forall s :: s in r ==> !Text.StartsWith(s.magasin, "EX")
    ensures c.interneOnly == Some(false) ==> forall s :: s in r ==> Text.StartsWith(s.magasin, "EX")
  {
    Seqs.Filter(data, s => PassesBeforeLot(s, c) && PassesLot(s, c) && PassesType(s, c))
  }

  /** With no criteria at all the advanced filter is `get_stocks_list`. */
  lemma AdvancedWithoutCriteria(data: seq<Stock>)
    ensures FilterStocksAdvanced(data, Criteria(None, None, None, None, None, None, None, None)) == StocksList(data)
  {
    var c := Criteria(None, None, None, None, None, None, None, None);
    Seqs.FilterSame(data, s => PassesBeforeLot(s, c) && PassesLot(s, c) && PassesType(s, c), Listed);
  }

  /** A stock line in warehouse "01" with supplier lot "L1". */
  function SampleStock(): Stock {
    Stocks.Stock("A_01_E_C", "A", "Article", None, 5.0, "UN", "OK", "", "01", "E", "C",
                 "PROPRE", "OUI", "OK", None, None, Some("L1"), Raw.Finite(0.0), None, None, None,
                 Some(Besoins.Matiere("A", "Article")))
  }

  /** Asking for lot "L1" over that one line raises as written, while the
      intended filter returns the line. */
  lemma LotCriterionRaises()
    ensures var c := Criteria(None, None, None, None, None, None, Some("L1"), None);
            FilterStocksAdvancedAsWritten([SampleStock()], c).Err? &&
            FilterStocksAdvanced([SampleStock()], c) == [SampleStock()]
  {
    var c := Criteria(None, None, None, None, None, None, Some("L1"), None);
    assert PassesBeforeLot(SampleStock(), c);
    assert SampleStock() in FilterStocksAdvanced([SampleStock()], c);
  }

  /** `update_quantity`: the stock with id `id` gets quantity `q`; `None`
      and no change when there is none. Only the quantity of that one line
      changes. */
  method UpdateQuantity(store: Repository.Store<Stock>, id: string, q: real) returns (r: Option<Stock>)
    modifies store
    ensures Repository.FirstIndex(old(store.data), store.idOf, id).None? ==> r.None? && store.data == old(store.data)
    ensures Repository.FirstIndex(old(store.data), store.idOf, id).Some? ==>
              var i := Repository.FirstIndex(old(store.data), store.idOf, id).value;
              r == Some(old(store.data)[i].(quantite := q)) &&
              store.data == old(store.data)[i := old(store.data)[i].(quantite := q)]
  {
    var found := store.GetById(id);
    if found.None? {
      return None;
    }
    var updated := found.value.(quantite := q);
    r := store.Update(id, updated);
  }
}
