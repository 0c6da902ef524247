# Interflow coverage analysis, modelled in Dafny

This project models the back end of Interflow, a supply-coverage tool for raw
materials ("matières premières"). The back end keeps four in-memory
repositories:

- demand events (`Besoin`, each with a due date `echeance`);
- warehouse stocks (`Stock`);
- supplier and internal receipts (`Reception`);
- repatriation shipments (`Rappatriement`, each carrying a list of `Produit`s).

For each material, the analysis engine does the following:

- sorts the open demand by due date;
- walks that demand, consuming a pool of supply (internal stock plus the net
  weight of matching shipment products);
- labels every demand COUVERT, PARTIEL or NON_COUVERT;
- builds the chronological trace, the first unmet demand, per-material
  statistics and coverage rates.

The modules follow the source files:

| module (file) | source file |
|---|---|
| `Besoins` (besoin.dfy) | `models/besoin.py` |
| `Stocks` (stock.dfy) | `models/stock.py` |
| `Receptions` (reception.dfy) | `models/reception.py` |
| `Rappatriements` (rappatriement.dfy) | `models/rappatriement.py` |
| `Analyse` (analyse.dfy) | `models/analyse.py` |
| `Repository` (base_repository.dfy) | `repositories/base_repository.py` |
| `StocksRepository` (stocks_repository.dfy) | `repositories/stocks_repository.py` |
| `BesoinsRepository` (besoins_repository.dfy) | `repositories/besoins_repository.py` |
| `RappatriementsRepository` (rappatriements_repository.dfy) | `repositories/rappatriements_repository.py` |
| `AnalyseService` (analyse_service.dfy) | `services/analyse_service.py` |
| `BesoinsCsv` (besoins_csv.dfy) | `lib/decoders/besoins/csv.py` |

Some modules are support code rather than models of a source file:

- `Raw` holds the loosely typed values that the pydantic validators receive, and the validators they share.
- `Text` is the subset of Python's `str` methods that the source uses.
- `Dates` stores datetimes as integer seconds and formats days as `YYYYMMDD`.
- `Dicts` models insertion-ordered dictionaries as association lists.
- `Seqs` and `Sorting` model list comprehensions, sums and the stable `sorted`.
- `Wrappers` holds `Option` and `Result`.

The base repository is a `class Store<T>` whose `data: seq<T>` field is
reassigned by its methods. A loop of the source that updates an accumulator
or the store is a `method` with loop invariants; that method is proved equal
to a specification function, and the lemmas about that function state what
the source promises. A loop that only selects the elements meeting a test
(for instance the `get_by_produit`, `get_by_matiere` and `get_by_date_range`
loops of the shipments repository) is a filter function over a sequence, as
are the list comprehensions. Records are datatypes. A pydantic validation
error, a `ValueError` or an `AttributeError` becomes the `Err` case of a
`Result`.

## Model

Paths are relative to the repository root.

| member | source | states |
|---|---|---|
| Besoins.EtatFromValue | interflow-backend/src/models/besoin.py:8-12 | a value string maps back to the one state whose value it is, and an unknown string to nothing |
| Besoins.MatiereFromDump | interflow-backend/src/models/matieres.py:27-31 | a missing or empty code or name falls back to the "unknown" defaults, and a present one is kept |
| Besoins.DerivedId | interflow-backend/src/models/besoin.py:26-32 | the id is `code_YYYYMMDD` when the stripped lot is empty, else `code_YYYYMMDD_lot` with the stripped lot |
| Besoins.NewBesoin | interflow-backend/src/models/besoin.py:15-32 | construction fails exactly on a negative quantity; a provided non-empty id is kept, otherwise the id is derived |
| Besoins.EtatOfEntry | interflow-backend/src/models/besoin.py:72-83 | a missing state or an unknown string becomes INCONNU; an enum member or a known value string is kept |
| Besoins.FromModelDump | interflow-backend/src/models/besoin.py:58-121 | the incoming id is discarded and re-derived; the state and lot ("" when absent) defaults apply; a missing matiere, quantity or due date gets the retry's default (unknown material, 0.0, `now`); it fails exactly on a negative quantity or a `None` stored under matiere, quantite or echeance |
| Besoins.EcheanceOf | interflow-backend/src/models/besoin.py:91-103 | a stored datetime is kept; text is read by `fromisoformat`, else by `strptime` with "%Y-%m-%d %H:%M:%S", else is `now` |
| Besoins.ModelDump | interflow-backend/src/models/besoin.py:34-42 | the state is written as its value string, the due date as its ISO text, and the id, quantity and lot as they are |
| Besoins.EtatValueRoundTrip | interflow-backend/src/models/besoin.py:79-81 | reading back the value string of any state gives that same state |
| Besoins.DumpLoadRoundTrip | interflow-backend/src/models/besoin.py:34-110 | when `fromisoformat` reads back the ISO text, dump then load gives the same besoin with its id regenerated from its fields, and the identical besoin when its id was already derived |
| Besoins.DerivedIdDependsOnDay | interflow-backend/src/models/besoin.py:26-32 | two due dates on the same day with lots that strip equally give the same id |
| Stocks.DivisionCode | interflow-backend/src/models/stock.py:36-41 | an all-digit input longer than 1 whose stripped form `str(int(s))` has at most 4 characters becomes that stripped form; any other input is kept |
| Stocks.StripLeadingZerosValue | interflow-backend/src/models/stock.py:38 | stripping the leading zeros of a digit string keeps the number it spells |
| Stocks.DivisionCodeKeepsValue | interflow-backend/src/models/stock.py:36-41 | the division code of an all-digit text is all digits and spells the same number |
| Stocks.NormalizeDivision | interflow-backend/src/models/stock.py:32-41 | a falsy value gives "", anything else the division code of its stripped text |
| Stocks.StripLeadingZerosOfDigits | interflow-backend/src/models/stock.py:37-40 | stripping the zeros of a digit string removes only leading zeros, leaves digits with no leading zero unless one character is left, and is idempotent |
| Stocks.DivisionCodeIdempotent | interflow-backend/src/models/stock.py:36-41 | normalising a division code twice changes nothing more |
| Stocks.NormalizeDivisionIdempotent | interflow-backend/src/models/stock.py:32-41 | normalising a division that has already been normalised gives it back |
| Stocks.NormalizedDivisionHasNoLeadingZero | interflow-backend/src/models/stock.py:37-40 | a normalised all-digit division longer than one character that still starts with 0 is longer than 4 characters |
| Stocks.DivisionCodeNoLeadingZero | interflow-backend/src/models/stock.py:37-40 | a division code that is all digits, longer than one character and starts with 0 is longer than 4 characters |
| Stocks.IntegerLot | interflow-backend/src/models/stock.py:49-53 | a lot ending in ".0" that is all digits once every ".0" is removed becomes that digit string; any other lot is kept |
| Stocks.NormalizeLotFournisseur | interflow-backend/src/models/stock.py:45-53 | a falsy value gives None, anything else the integer spelling of its stripped text |
| Stocks.ReplacePoint0AfterDigits | interflow-backend/src/models/stock.py:51-52 | removing ".0" from digits followed by ".0" gives the digits |
| Stocks.IntegerLotOfFloatSpelling | interflow-backend/src/models/stock.py:51-52 | a lot spelled as a float such as "123.0" becomes "123" |
| Stocks.LotOfStrippedText | interflow-backend/src/models/stock.py:47-53 | a stripped non-empty text lot is kept as its integer spelling |
| Stocks.NormalizeNumeric | interflow-backend/src/models/stock.py:57-79 | None gives 0.0, and an int or float gives its value as a float |
| Stocks.NewStock | interflow-backend/src/models/stock.py:6-113 | a quantity that is not a number at least 0 is refused; the id is `article_magasin_emplacement_contenant`; a missing matiere becomes TOBEDEFINED named after the article label; division, lot, numbers and the du/classification/restriction/commentaire texts are normalised, and every other field is kept |
| Stocks.StockIdIsComposite | interflow-backend/src/models/stock.py:113 | two stocks with the same article, warehouse, location and container get the same id, whatever their other fields |
| Raw.CleanOptionalText | interflow-backend/src/models/stock.py:83-104 | None, NaN and the placeholders nan/none/null/"" (after stripping) become None; other text is stripped |
| Raw.CleanText | interflow-backend/src/models/rappatriement.py:82-130 | as the optional cleaner, but a missing value becomes "" |
| Raw.CommaToDot | interflow-backend/src/models/rappatriement.py:38-43 | text without a comma is unchanged; a trailing comma becomes ".0"; otherwise every comma becomes a dot |
| Raw.FloatField | interflow-backend/src/models/stock.py:57-79 | None gives 0.0, numbers keep their value, and text that does not parse gives 0.0 |
| Raw.Trunc | interflow-backend/src/models/rappatriement.py:46 | `int()` truncates toward zero |
| Raw.CleanTextIsOptionalOrEmpty | interflow-backend/src/models/rappatriement.py:82-103 | the string cleaner is the optional cleaner with "" in place of None |
| Raw.CleanOptionalTextIdempotent | interflow-backend/src/models/stock.py:83-104 | a cleaned text is not a placeholder, and cleaning it again gives it back |
| Receptions.EtatFromStatut | interflow-backend/src/models/reception.py:126-136 | each accented or unaccented spelling of the four order statuses maps to its state, both ways, and anything else to EN_COURS |
| Receptions.UpperOfLower | interflow-backend/src/models/reception.py:127-134 | upper-casing a lower-cased text equals upper-casing the text |
| Receptions.EtatFromStatutIgnoresCase | interflow-backend/src/models/reception.py:127-134 | the status mapping does not depend on letter case |
| Receptions.NewReception | interflow-backend/src/models/reception.py:104-136 | a provided id is kept; an INTERNE receipt with order and article gets `ordre_article_YYYYMMDD_poste` (NOPOSTE when absent); an INTERNE status sets the state; other receipts keep their state |
| Receptions.InternalId | interflow-backend/src/models/reception.py:108-119 | the id is `ordre_article_YYYYMMDD_poste`, the day taken from the receipt date, or from the creation date when there is none |
| Receptions.PosteOrDefault | interflow-backend/src/models/reception.py:113-118 | the post written into the id is the post, or NOPOSTE when it is missing or empty |
| Receptions.InternalIdDependsOnDay | interflow-backend/src/models/reception.py:110-114 | two receipt datetimes on the same day give the same internal id |
| Receptions.InternalIdIgnoresUuid | interflow-backend/src/models/reception.py:108-119 | the derived internal id does not depend on the random fallback |
| Receptions.TypeOfEntry | interflow-backend/src/models/reception.py:188-194 | a missing or unknown type becomes PRESTATAIRE |
| Receptions.EtatOfEntry | interflow-backend/src/models/reception.py:240-250 | a missing or unknown state becomes EN_COURS, and a known value is kept |
| Receptions.EtatValueRoundTrip | interflow-backend/src/models/reception.py:240-250 | reading back the value string of any state gives that state |
| Receptions.FromModelDump | interflow-backend/src/models/reception.py:171-277 | a negative quantity or a `None` stored under type, etat or date_creation falls back to the all-default receipt (PRESTATAIRE, unknown matiere, quantity 0, created `now`, EN_COURS); otherwise the receipt is the one the constructor builds from the entries, with the defaults for missing type, matiere, quantity, creation date and state |
| Receptions.DefaultReceptionIsConstructed | interflow-backend/src/models/reception.py:265-277 | the fallback receipt is what the constructor builds from the defaults |
| Rappatriements.NormalizePrelevement | interflow-backend/src/models/rappatriement.py:52-77 | None, NaN and placeholders are False; a boolean is kept; text is True iff it lower-cases and strips to "pour prlvm" |
| Rappatriements.NormalizeBool | interflow-backend/src/models/rappatriement.py:132-147 | None is False; text is True iff it is one of oui, yes, true, 1, x; a number is True iff it is non-zero |
| Rappatriements.NormalizeCount | interflow-backend/src/models/rappatriement.py:26-48 | None gives 0; an integer is kept; a float is truncated toward zero, and an infinite one is an error; text is an error exactly when it parses to infinity |
| Rappatriements.PoidsNetAsWritten | interflow-backend/src/models/rappatriement.py:26-48 | as written, a net weight that is accepted is a whole number |
| Rappatriements.PoidsNet | interflow-backend/src/models/rappatriement.py:26-48 | the intended net weight keeps its fraction, and an accepted weight is non-negative |
| Rappatriements.PoidsNetTruncated | interflow-backend/src/models/rappatriement.py:29-48 | the weight 12.5 is stored as 12.0 as written, and as 12.5 as intended |
| Rappatriements.PoidsNetAsWrittenIsFloor | interflow-backend/src/models/rappatriement.py:29-48 | as written, every non-negative weight is floored |
| Rappatriements.NewProduit | interflow-backend/src/models/rappatriement.py:6-147 | with the intended float weight (`PoidsNet`, see Findings): a product is accepted exactly when that weight validates and its counts are non-negative integers; every field, lot, dimension_palettes, code_onu, grp_emballage and po included, is its cleaned input |
| Rappatriements.NewProduitAsWritten | interflow-backend/src/models/rappatriement.py:6-48 | the product as written: accepted exactly when the integer-branch weight (`PoidsNetAsWritten`) and the counts validate; whenever both readings accept, it is the intended product with only the weight changed |
| Rappatriements.PoidsNetAsWrittenAcceptsMore | interflow-backend/src/models/rappatriement.py:29-48 | as written, a float -0.5 and the text "nan" give a weight of 0.0; the intended float reading refuses both |
| Rappatriements.NewRappatriement | interflow-backend/src/models/rappatriement.py:150-189 | the six text fields are their cleaned inputs ("" for None, NaN and placeholders), and the dates and products are kept |
| Rappatriements.NewRappatriementMissingText | interflow-backend/src/models/rappatriement.py:165-171 | a shipment whose remarks and transfer number are given as an explicit None holds "" for them (the validator maps None to "") |
| Rappatriements.PoidsTotal | interflow-backend/src/models/rappatriement.py:197-201 | an empty shipment weighs 0 |
| Rappatriements.PoidsTotalNonNegative | interflow-backend/src/models/rappatriement.py:197-201 | non-negative product weights give a non-negative total |
| Rappatriements.NbPalettesTotal | interflow-backend/src/models/rappatriement.py:203-207 | an empty shipment has 0 pallets |
| Rappatriements.NbContenantsTotal | interflow-backend/src/models/rappatriement.py:209-213 | an empty shipment has 0 containers |
| Rappatriements.AjouterProduit | interflow-backend/src/models/rappatriement.py:191-195 | exactly one product is appended at the end; the earlier products and every other field are unchanged |
| Rappatriements.AjouterProduitTotals | interflow-backend/src/models/rappatriement.py:191-213 | adding a product adds its weight, pallets and containers to the totals |
| Rappatriements.CountTotalsNonNegative | interflow-backend/src/models/rappatriement.py:203-213 | pallet and container totals are never negative |
| Analyse.TotalBesoins | interflow-backend/src/models/analyse.py:98-101 | the single-material count when one is set, otherwise the sum over all materials |
| Analyse.TotalCouverts | interflow-backend/src/models/analyse.py:103-106 | the same single-versus-sum rule for covered counts |
| Analyse.TauxCouverture | interflow-backend/src/models/analyse.py:108-112 | 0.0 when the total is 0, else covered/total·100 |
| Analyse.TotalCouvertsWithinTotal | interflow-backend/src/models/analyse.py:98-106 | with consistent analyses, 0 ≤ covered ≤ total |
| Analyse.TauxCouvertureIsPercentage | interflow-backend/src/models/analyse.py:108-112 | the rate lies in [0, 100], and is 100 iff there is demand and all of it is covered |
| Repository.FirstIndex | interflow-backend/src/repositories/base_repository.py:66-71 | the first position holding the id, or None iff no element holds it |
| Repository.Imported | interflow-backend/src/repositories/base_repository.py:166-178 | the import keeps the stored data as a prefix and adds at most the batch |
| Repository.AppendKeepsIdsUnique | interflow-backend/src/repositories/base_repository.py:73-82 | appending an item whose id does not clash keeps truthy ids unique |
| Repository.ImportedKeepsIdsUnique | interflow-backend/src/repositories/base_repository.py:166-178 | importing keeps truthy ids unique, including duplicates within the batch |
| Repository.ImportedCoversIds | interflow-backend/src/repositories/base_repository.py:166-178 | every truthy id of the batch is present after the import |
| Repository.ImportedKeepsIdless | interflow-backend/src/repositories/base_repository.py:166-178 | every item with an empty id is appended |
| Repository.Store.constructor | interflow-backend/src/repositories/base_repository.py:20-33 | a store holds the loaded data and its id field |
| Repository.Store.GetAll | interflow-backend/src/repositories/base_repository.py:62-64 | returns the stored elements |
| Repository.Store.GetById | interflow-backend/src/repositories/base_repository.py:66-71 | the first element with that id, or None iff there is none |
| Repository.Store.Exists | interflow-backend/src/repositories/base_repository.py:209-211 | true iff some element has that id |
| Repository.Store.Count | interflow-backend/src/repositories/base_repository.py:205-207 | the number of stored elements |
| Repository.Store.Create | interflow-backend/src/repositories/base_repository.py:73-82 | fails, changing nothing, iff a truthy id is already present; otherwise appends the item at the end; keeps ids unique |
| Repository.Store.Update | interflow-backend/src/repositories/base_repository.py:84-91 | replaces only the first match and keeps the length; None with no change when the id is absent |
| Repository.Store.Delete | interflow-backend/src/repositories/base_repository.py:93-100 | removes exactly the first match and returns True; False with the data unchanged when the id is absent |
| Repository.Store.Flush | interflow-backend/src/repositories/base_repository.py:115-118 | the data is empty afterwards |
| Repository.Store.Filter | interflow-backend/src/repositories/base_repository.py:102-113 | the order-preserving subsequence matching every criterion, with None criteria ignored |
| Repository.PassingNone | interflow-backend/src/repositories/base_repository.py:102-113 | before any criterion is applied, every element passes |
| Repository.PassingAll | interflow-backend/src/repositories/base_repository.py:102-113 | narrowing by each criterion in turn equals filtering by all of them at once |
| Repository.FilterStep | interflow-backend/src/repositories/base_repository.py:102-113 | a None criterion keeps the list, and another one filters it by equality |
| Repository.ImportItems | interflow-backend/src/repositories/base_repository.py:162-178 | the store becomes the import of the batch, and the added and ignored counts add up to the batch size |
| StocksRepository.StocksList | interflow-backend/src/repositories/stocks_repository.py:18-26 | exactly the stocks whose warehouse is not "30" |
| StocksRepository.InternalStocks | interflow-backend/src/repositories/stocks_repository.py:28-37 | exactly the listed stocks whose warehouse does not start with "EX" |
| StocksRepository.ExternalStocks | interflow-backend/src/repositories/stocks_repository.py:39-48 | exactly the listed stocks whose warehouse starts with "EX" |
| StocksRepository.StocksByMatiere | interflow-backend/src/repositories/stocks_repository.py:50-62 | exactly the stocks with a matiere of that code outside warehouse "30" |
| StocksRepository.InternalStocksByMatiere | interflow-backend/src/repositories/stocks_repository.py:64-76 | the material's stocks that are not in "EX" warehouses |
| StocksRepository.ExternalStocksByMatiere | interflow-backend/src/repositories/stocks_repository.py:78-90 | the material's stocks in "EX" warehouses |
| StocksRepository.ListingPartition | interflow-backend/src/repositories/stocks_repository.py:28-48 | internal and external stocks partition the listing |
| StocksRepository.ByMatierePartition | interflow-backend/src/repositories/stocks_repository.py:64-90 | the internal and external stocks of a material partition its stocks |
| StocksRepository.InternalByMatiereAgrees | interflow-backend/src/repositories/stocks_repository.py:64-76 | filtering by material then by internality equals filtering in the other order |
| StocksRepository.TotalInternalQuantityByMatiere | interflow-backend/src/repositories/stocks_repository.py:173-183 | the sum over all stored lines of the quantity of each listed internal line of the material, nothing for the others |
| StocksRepository.TotalExternalQuantityByMatiere | interflow-backend/src/repositories/stocks_repository.py:185-195 | the sum over all stored lines of the quantity of each listed external line of the material, nothing for the others |
| StocksRepository.TotalQuantityByMatiere | interflow-backend/src/repositories/stocks_repository.py:160-171 | total quantity = internal total + external total, for every code |
| StocksRepository.TotalQuantityNonNegative | interflow-backend/src/repositories/stocks_repository.py:160-197 | non-negative stock quantities give non-negative totals |
| StocksRepository.RaisesWithinGrows | interflow-backend/src/repositories/stocks_repository.py:132-141 | once a criterion has raised, applying more criteria still raises |
| StocksRepository.Attribute | interflow-backend/src/repositories/stocks_repository.py:136-139 | `getattr` finds a value exactly for the 22 field names of a stock line |
| StocksRepository.FilterStocks | interflow-backend/src/repositories/stocks_repository.py:120-141 | raises iff an unknown attribute meets a non-empty list; otherwise keeps the stocks equal on every non-None criterion |
| StocksRepository.ApplyCriterion | interflow-backend/src/repositories/stocks_repository.py:132-141 | one criterion raises exactly when it names an unknown attribute while stocks are left; otherwise it narrows what the earlier criteria left |
| StocksRepository.FilterStocksStep | interflow-backend/src/repositories/stocks_repository.py:132-141 | one criterion applied without raising narrows by equality, or keeps the list when it is None |
| StocksRepository.FilterStocksAdvancedAsWritten | interflow-backend/src/repositories/stocks_repository.py:224-290 | as written, a lot criterion raises iff some stock survives the earlier criteria |
| StocksRepository.FilterStocksAdvanced | interflow-backend/src/repositories/stocks_repository.py:224-290 | exactly the stocks meeting every given criterion; never warehouse "30"; interne_only True/False keeps non-"EX"/"EX" stocks |
| StocksRepository.AdvancedWithoutCriteria | interflow-backend/src/repositories/stocks_repository.py:249-290 | with every criterion None the result is the stock listing |
| StocksRepository.LotCriterionRaises | interflow-backend/src/repositories/stocks_repository.py:280-281 | a lot criterion over one ordinary stock raises as written, while the corrected filter keeps the stock |
| StocksRepository.UpdateQuantity | interflow-backend/src/repositories/stocks_repository.py:143-158 | None for an unknown id; otherwise only that stock's quantity changes |
| BesoinsRepository.FilterBesoinsAdvanced | interflow-backend/src/repositories/besoins_repository.py:137-197 | the order-preserving subsequence of besoins meeting every given criterion, with inclusive bounds |
| BesoinsRepository.BesoinsByEtat | interflow-backend/src/repositories/besoins_repository.py:19-29 | exactly the besoins in that state, in order |
| BesoinsRepository.ActuelsByHorizon | interflow-backend/src/repositories/besoins_repository.py:199-221 | exactly the INCONNU besoins due no later than the start plus the horizon, past-due ones included |
| BesoinsRepository.GroupBesoinsByMatiere | interflow-backend/src/repositories/besoins_repository.py:247-263 | each key's group is the input's besoins of that code in input order; keys are unique; sizes sum to the input length; the groups are a permutation of the input |
| BesoinsRepository.GroupStep | interflow-backend/src/repositories/besoins_repository.py:257-262 | one besoin lands at the end of its own code's group, creating the group when it is new |
| BesoinsRepository.GroupedUnique | interflow-backend/src/repositories/besoins_repository.py:257-263 | the grouping has one entry per code |
| BesoinsRepository.GroupedGet | interflow-backend/src/repositories/besoins_repository.py:257-263 | looking up a code gives exactly its besoins in input order, or None when it has none |
| BesoinsRepository.GroupedSizes | interflow-backend/src/repositories/besoins_repository.py:257-263 | group sizes add up to the number of besoins |
| BesoinsRepository.GroupedFlatten | interflow-backend/src/repositories/besoins_repository.py:257-263 | the groups together hold the input's besoins, each as often as in the input |
| BesoinsRepository.SortBesoinsByEcheance | interflow-backend/src/repositories/besoins_repository.py:265-276 | a permutation of the input, ascending by due date or descending when reversed |
| BesoinsRepository.SortBesoinsByEcheanceStable | interflow-backend/src/repositories/besoins_repository.py:276 | besoins with equal due dates keep their input order |
| BesoinsRepository.CalculateTotalQuantite | interflow-backend/src/repositories/besoins_repository.py:278-288 | the total of an empty list is 0 |
| BesoinsRepository.TotalQuantiteNonNegative | interflow-backend/src/repositories/besoins_repository.py:278-288 | non-negative quantities give a non-negative total |
| BesoinsRepository.TotalQuantiteAppend | interflow-backend/src/repositories/besoins_repository.py:278-288 | the total of two lists end to end is the sum of their totals |
| BesoinsRepository.TotalQuantiteAfterSort | interflow-backend/src/repositories/besoins_repository.py:265-288 | sorting does not change the total quantity |
| BesoinsRepository.FindSimilar | interflow-backend/src/repositories/besoins_repository.py:58-61 | the first aggregated besoin with the same matiere, state and lot, or None iff there is none |
| BesoinsRepository.SearchSimilar | interflow-backend/src/repositories/besoins_repository.py:58-61 | the loop stops at the first similar entry, or at the end when there is none |
| BesoinsRepository.AggregatedByTimelapse | interflow-backend/src/repositories/besoins_repository.py:33-70 | the window's besoins merged by (matiere, state, lot): no two entries alike, total quantity preserved |
| BesoinsRepository.MergeAt | interflow-backend/src/repositories/besoins_repository.py:56-68 | merging adds the quantity to the similar entry found, or appends the besoin when there is none |
| BesoinsRepository.AggregatedDistinct | interflow-backend/src/repositories/besoins_repository.py:56-70 | no two aggregated entries share matiere, state and lot |
| BesoinsRepository.AggregatedTotal | interflow-backend/src/repositories/besoins_repository.py:56-70 | aggregation preserves the total quantity |
| BesoinsRepository.AggregatedCovers | interflow-backend/src/repositories/besoins_repository.py:56-70 | every input besoin has an aggregated entry of its kind |
| BesoinsRepository.TraceStep | interflow-backend/src/repositories/besoins_repository.py:56-70 | one stored besoin either becomes a new head or has its quantity added to its group's head; the aggregation is merged when the besoin is kept |
| BesoinsRepository.WrittenTrace | interflow-backend/src/repositories/besoins_repository.py:56-70 | as written, the aggregated heads are the stored besoins themselves, and the sums are written into them |
| BesoinsRepository.WrittenTraceAggregates | interflow-backend/src/repositories/besoins_repository.py:56-70 | as written, the returned list still equals the intended aggregation |
| BesoinsRepository.SampleCall | interflow-backend/src/repositories/besoins_repository.py:56-70 | two alike besoins of 1.0 and 2.0 leave 3.0 in the stored first besoin |
| BesoinsRepository.AggregationWritesBack | interflow-backend/src/repositories/besoins_repository.py:63-65 | as written, a second call on the same data reports 5.0 where the first reported 3.0 |
| BesoinsRepository.UpdateEtat | interflow-backend/src/repositories/besoins_repository.py:95-110 | None for an unknown id; otherwise only that besoin's state changes |
| RappatriementsRepository.ByMatiere | interflow-backend/src/repositories/rappatriements_repository.py:160-180 | each shipment at most once, in order, iff some product's code or designation contains the code ignoring case |
| RappatriementsRepository.ByProduit | interflow-backend/src/repositories/rappatriements_repository.py:142-158 | each shipment at most once, in order, iff some product code contains the code ignoring case |
| RappatriementsRepository.ByProduitWithinByMatiere | interflow-backend/src/repositories/rappatriements_repository.py:142-180 | a shipment found by product is also found by material |
| RappatriementsRepository.ByDateRange | interflow-backend/src/repositories/rappatriements_repository.py:90-108 | exactly the shipments with a request date inside the inclusive bounds |
| RappatriementsRepository.CandidateInjective | interflow-backend/src/repositories/rappatriements_repository.py:401-405 | distinct counter values give distinct candidate numbers |
| RappatriementsRepository.CandidatesCount | interflow-backend/src/repositories/rappatriements_repository.py:401-405 | the first n candidates are n distinct numbers |
| RappatriementsRepository.CollisionsBounded | interflow-backend/src/repositories/rappatriements_repository.py:403-405 | the search collides at most as many times as there are existing numbers, so it terminates |
| RappatriementsRepository.GenerateTransferNumber | interflow-backend/src/repositories/rappatriements_repository.py:388-407 | returns a number not among the existing ones: the first candidate that is free, and the bare timestamp when that is free |
| RappatriementsRepository.CreateRappatriement | interflow-backend/src/repositories/rappatriements_repository.py:62-76 | a non-empty number is kept, and creation fails iff it is already taken; an empty number is replaced by the first candidate `{ts}`, `{ts}001`, `{ts}002`, … that is not taken; a failure changes nothing |
| RappatriementsRepository.RetirerProduit | interflow-backend/src/repositories/rappatriements_repository.py:368-386 | None for an unknown transfer; otherwise only that shipment changes, losing exactly the products with that code |
| RappatriementsRepository.RetirerProduitKeeps | interflow-backend/src/repositories/rappatriements_repository.py:385 | the remaining products are the others, in order, each as often as before |
| RappatriementsRepository.GetStatistiquesGlobales | interflow-backend/src/repositories/rappatriements_repository.py:230-277 | all zero for no shipments; otherwise the totals are the sums; the per-packaging and per-person counts and weights add up to the totals |
| RappatriementsRepository.CountProduit | interflow-backend/src/repositories/rappatriements_repository.py:262-267 | one product adds 1 and its weight to its packaging type's entry, creating it at zero when new |
| RappatriementsRepository.PackagingLoop | interflow-backend/src/repositories/rappatriements_repository.py:261-267 | the loop computes the per-packaging tallies |
| RappatriementsRepository.ResponsableLoop | interflow-backend/src/repositories/rappatriements_repository.py:270-275 | the loop computes the per-person tallies |
| RappatriementsRepository.AllProduitsLength | interflow-backend/src/repositories/rappatriements_repository.py:252 | total_produits is the number of products across all shipments |
| RappatriementsRepository.AllProduitsPoids | interflow-backend/src/repositories/rappatriements_repository.py:253 | the product weights sum to the sum of shipment weights |
| RappatriementsRepository.TypesEmballageUnique | interflow-backend/src/repositories/rappatriements_repository.py:261-267 | one entry per packaging type |
| RappatriementsRepository.TypesEmballageCount | interflow-backend/src/repositories/rappatriements_repository.py:261-267 | packaging counts add up to the number of products |
| RappatriementsRepository.TypesEmballagePoids | interflow-backend/src/repositories/rappatriements_repository.py:261-267 | packaging weights add up to the total product weight |
| RappatriementsRepository.ResponsablesTotals | interflow-backend/src/repositories/rappatriements_repository.py:270-275 | one entry per person; counts add up to the number of shipments and weights to the total weight |
| RappatriementsRepository.FilterAdvanced | interflow-backend/src/repositories/rappatriements_repository.py:599-677 | the order-preserving subsequence meeting every truthy criterion |
| RappatriementsRepository.FalsyCriteriaIgnored | interflow-backend/src/repositories/rappatriements_repository.py:633-677 | a threshold of 0 or an empty person filter behaves as if absent |
| RappatriementsRepository.FalsyCriterionIgnored | interflow-backend/src/repositories/rappatriements_repository.py:633-677 | two sets of criteria that switch on the same filters with the same values select the same list, whatever the switched-off fields hold |
| AnalyseService.StringToEtat | interflow-backend/src/services/analyse_service.py:56-63 | "COUVERT" and "PARTIEL" map to their states, both ways; every other string maps to NON_COUVERT; never INCONNU |
| AnalyseService.CoverageState | interflow-backend/src/services/analyse_service.py:75-87 | COUVERT with the quantity and 100% iff supply ≥ quantity; PARTIEL with the supply and its share iff 0 < supply < quantity; otherwise NON_COUVERT with 0 and 0 |
| AnalyseService.CoverageBounds | interflow-backend/src/services/analyse_service.py:82-87 | the available amount lies between 0 and the quantity, and the percentage between 0 and 100 |
| AnalyseService.RunningNonNegative | interflow-backend/src/services/analyse_service.py:105-109 | from a non-negative start, the running stock never goes negative |
| AnalyseService.RunningNonIncreasing | interflow-backend/src/services/analyse_service.py:105-109 | the running stock never increases along the pass |
| AnalyseService.ShortfallIsFinal | interflow-backend/src/services/analyse_service.py:105-109 | after the first demand that is not covered, the pool is 0, and only zero-quantity demand is covered |
| AnalyseService.ByEcheance | interflow-backend/src/services/analyse_service.py:96 | a permutation of the demand, ascending by due date |
| AnalyseService.Served | interflow-backend/src/services/analyse_service.py:96-117 | the results list the demands in the order they were served |
| AnalyseService.ChronologicalCoverage | interflow-backend/src/services/analyse_service.py:89-119 | one result per besoin, ascending by due date, each labelled by the running pool; from a non-negative start, the remaining stock stays non-negative |
| AnalyseService.CoverageStep | interflow-backend/src/services/analyse_service.py:100-117 | one besoin gets the result its running pool gives and leaves the next running pool |
| AnalyseService.PassNonNegative | interflow-backend/src/services/analyse_service.py:105-117 | from a non-negative start every recorded remaining stock is non-negative |
| AnalyseService.FirstShortfallStep | interflow-backend/src/services/analyse_service.py:311-319 | the first-unmet record is set once, at the smallest index not COUVERT, with quantity minus available |
| AnalyseService.ChronologicalStep | interflow-backend/src/services/analyse_service.py:308-335 | one besoin gives its step, the pool after it, and the first shortfall so far |
| AnalyseService.ChronologyLinks | interflow-backend/src/services/analyse_service.py:321-342 | in a detailed analysis each step starts from the pool the previous one left, the last leaves the final pool, and a non-negative start gives a non-negative final pool |
| AnalyseService.ChronologicalAnalysis | interflow-backend/src/services/analyse_service.py:301-343 | the steps chain (each after equals the next before); the final stock is the last after, or the start when there is no demand; the first unmet demand is None iff all are covered |
| AnalyseService.RappatriementsQuantity | interflow-backend/src/services/analyse_service.py:65-73 | the net weight of the products whose code or designation contains the material code, ignoring case |
| AnalyseService.SumOfZeros | interflow-backend/src/services/analyse_service.py:65-73 | products that do not match add nothing |
| AnalyseService.ByMatiereKeepsQuantity | interflow-backend/src/services/analyse_service.py:65-73 | pre-selecting the shipments by material does not change the matched weight |
| AnalyseService.NoMatchWeighsNothing | interflow-backend/src/services/analyse_service.py:65-73 | a shipment without a matching product contributes 0 |
| AnalyseService.GetCoverageStock | interflow-backend/src/services/analyse_service.py:242-250 | coverage supply = internal stock quantity + matching shipment weight |
| AnalyseService.CoverageStockNonNegative | interflow-backend/src/services/analyse_service.py:242-250 | non-negative quantities and weights give non-negative supply |
| AnalyseService.AllProduitsNonNegative | interflow-backend/src/services/analyse_service.py:65-73 | non-negative weights give a non-negative shipment quantity |
| AnalyseService.ExternesParMagasin | interflow-backend/src/services/analyse_service.py:266-268 | each external warehouse maps to the sum of its stock quantities |
| AnalyseService.MagasinTotalsStep | interflow-backend/src/services/analyse_service.py:267-268 | adding one stock to its warehouse entry keeps the per-warehouse sums |
| AnalyseService.ExterneOfPut | interflow-backend/src/services/analyse_service.py:268 | writing one warehouse leaves the others unchanged |
| AnalyseService.ExterneOfGet | interflow-backend/src/services/analyse_service.py:268 | `dict.get(m, 0)` is the stored value or 0 |
| AnalyseService.CoveredCount | interflow-backend/src/services/analyse_service.py:277 | counts the first n besoins whose running pool holds their whole quantity; at most n |
| AnalyseService.CoveredCountFull | interflow-backend/src/services/analyse_service.py:277 | all demands are covered iff the covered count equals the count |
| AnalyseService.CountCoveredAll | interflow-backend/src/services/analyse_service.py:277 | over a whole pass, the COUVERT results number exactly the covered besoins |
| AnalyseService.CountCovered | interflow-backend/src/services/analyse_service.py:277 | counting COUVERT results equals the covered count of the pass |
| AnalyseService.Percent | interflow-backend/src/services/analyse_service.py:278 | 0 with no demand, else covered/total·100 |
| AnalyseService.PercentBounds | interflow-backend/src/services/analyse_service.py:278 | the rate is in [0, 100], and is 100 iff all are covered |
| AnalyseService.AtLeastZero | interflow-backend/src/services/analyse_service.py:296 | `max(0, x)` is at least 0 and at least x, and is one of them |
| AnalyseService.AnalyzeSingleMatiere | interflow-backend/src/services/analyse_service.py:252-299 | the counts, rate, quantities, per-warehouse totals, supply, shortfall `max(0, demand − supply)`, per-demand coverage and chronology of one material |
| AnalyseService.MatiereCoverage | interflow-backend/src/services/analyse_service.py:270-281 | the covered count of the due-date pass, one coverage record per besoin, and the detailed analysis, whose first shortfall is None iff every besoin is covered |
| AnalyseService.Couvertures | interflow-backend/src/services/analyse_service.py:345-381 | one coverage record per result, in order |
| AnalyseService.Rated | interflow-backend/src/services/analyse_service.py:457-463 | the rates are set on every entry, keeping keys and order |
| AnalyseService.MatiereStats | interflow-backend/src/services/analyse_service.py:415-465 | one entry per material mentioned; its total counts that material's records; covered + partial + uncovered = total; the totals add up to the number of records |
| AnalyseService.CountRecord | interflow-backend/src/services/analyse_service.py:436-455 | one record grows its material's totals and counts its state |
| AnalyseService.CountStats | interflow-backend/src/services/analyse_service.py:418-455 | the counting loop computes the per-material tallies |
| AnalyseService.SetRates | interflow-backend/src/services/analyse_service.py:457-463 | the rate loop sets the three rates of every entry |
| AnalyseService.StatsOfFacts | interflow-backend/src/services/analyse_service.py:418-455 | the tallies have unique keys, exactly the materials mentioned, balanced counts, and totals adding up to the records |
| AnalyseService.StatsOfCount | interflow-backend/src/services/analyse_service.py:438-439 | a material's total is the number of its records |
| AnalyseService.RatedFacts | interflow-backend/src/services/analyse_service.py:457-463 | setting rates keeps keys and totals, and balanced counts give rates that add up |
| AnalyseService.RatesSumTo100 | interflow-backend/src/services/analyse_service.py:457-463 | the three rates of a material with demand add up to 100 |
| AnalyseService.SharesSum | interflow-backend/src/services/analyse_service.py:459-463 | three shares of a total, each as a percentage, add up to 100 |
| AnalyseService.Erased | interflow-backend/src/services/analyse_service.py:227-234 | a copy equals the original in everything but its state |
| AnalyseService.Labelled | interflow-backend/src/services/analyse_service.py:226-235 | one labelled copy per demand of the material |
| AnalyseService.AnalyzeBesoins | interflow-backend/src/services/analyse_service.py:193-238 | one copy per INCONNU besoin, each with its id, matiere, quantity, due date and lot unchanged and a computed state; sorted by due date; the repository is untouched |
| AnalyseService.Copies | interflow-backend/src/services/analyse_service.py:226-235 | the copy loop produces the labelled copies |
| AnalyseService.SortedCopies | interflow-backend/src/services/analyse_service.py:218-238 | the sorted copies carry computed states and, with states erased, are a permutation of the INCONNU besoins |
| AnalyseService.AnalysedLabels | interflow-backend/src/services/analyse_service.py:226-235 | no copy is INCONNU |
| AnalyseService.AnalysedErased | interflow-backend/src/services/analyse_service.py:218-235 | with states erased, the copies are a permutation of the grouped besoins |
| AnalyseService.LabelledErased | interflow-backend/src/services/analyse_service.py:226-235 | with states erased, one material's copies are a permutation of its demand |
| AnalyseService.EmptyAnalyse | interflow-backend/src/services/analyse_service.py:467-499 | an empty single-material analysis: unknown name, no coverage, zero totals and rate, the limit date horizon days after the start |
| BesoinsCsv.IsValidCodeMp | interflow-backend/src/lib/decoders/besoins/csv.py:15-37 | a code is valid iff it is not "nan" and has at least 3 characters |
| BesoinsCsv.CleanQuantityIsClean | interflow-backend/src/lib/decoders/besoins/csv.py:218 | the cleaned quantity has no U+202F, U+00A0, space or comma |
| BesoinsCsv.CleanQuantityFixpoint | interflow-backend/src/lib/decoders/besoins/csv.py:218 | cleaning a clean text changes nothing |
| BesoinsCsv.CleanQuantityIdempotent | interflow-backend/src/lib/decoders/besoins/csv.py:218 | cleaning twice equals cleaning once |
| BesoinsCsv.CleanQuantityFrench | interflow-backend/src/lib/decoders/besoins/csv.py:218 | "1", a narrow no-break space and "234,5" clean to "1234.5" in `decode_file` |
| BesoinsCsv.CleanRowQuantityFrench | interflow-backend/src/lib/decoders/besoins/csv.py:85 | "1 234,5" cleans to "1234.5" in `decode_row` |
| BesoinsCsv.FieldOr | interflow-backend/src/lib/decoders/besoins/csv.py:69-71 | `row.get(key) or default`: the default when the key is missing or its value is empty |
| BesoinsCsv.DecodeRow | interflow-backend/src/lib/decoders/besoins/csv.py:51-103 | fails iff the code or designation is empty or the parsed quantity is not a finite number at least 0 (NaN and the infinities fail; unparsable text counts as 0); otherwise a besoin due now, INCONNU, with no lot and a derived id |
| BesoinsCsv.ParseDateCell | interflow-backend/src/lib/decoders/besoins/csv.py:149-172 | a blank or "nan" date cell gives no date |
| BesoinsCsv.ParsedDates | interflow-backend/src/lib/decoders/besoins/csv.py:149-172 | one parsed date per cell of the dates line |
| BesoinsCsv.Columns | interflow-backend/src/lib/decoders/besoins/csv.py:209-232 | one outcome per column, and columns before 9 give nothing |
| BesoinsCsv.DecodeFile | interflow-backend/src/lib/decoders/besoins/csv.py:105-250 | succeeds iff the suffix is ".csv" ignoring case and the dates line exists; the besoins are those of each data row in order |
| BesoinsCsv.ParseDatesLine | interflow-backend/src/lib/decoders/besoins/csv.py:148-171 | the date-line loop gives one parsed date (or none) per cell, as the cell parse rule says |
| BesoinsCsv.DecodeRows | interflow-backend/src/lib/decoders/besoins/csv.py:175-237 | the row loop gives the besoins of every data row, row after row |
| BesoinsCsv.DecodeCell | interflow-backend/src/lib/decoders/besoins/csv.py:210-232 | one dated, non-empty, non-"0" cell whose cleaned text parses to a positive finite quantity, on a date other than today, gives a besoin; every other cell gives none |
| BesoinsCsv.PositiveQuantity | interflow-backend/src/lib/decoders/besoins/csv.py:219-221 | a parsed quantity is kept exactly when it is a finite number above 0 (NaN, the infinities, 0, negatives and unparsable text are dropped), and then its value is kept |
| BesoinsCsv.DecodeDataRow | interflow-backend/src/lib/decoders/besoins/csv.py:176-232 | the loop over one row's columns computes that row's besoins |
| BesoinsCsv.ColumnBesoinSound | interflow-backend/src/lib/decoders/besoins/csv.py:209-232 | a besoin made from a column comes from a column ≥ 9, with a date, a positive quantity and a valid code |
| BesoinsCsv.RowBesoinsMembers | interflow-backend/src/lib/decoders/besoins/csv.py:180-232 | a besoin comes out of a row iff the row is accepted and some column produces it |
| BesoinsCsv.DecodedMembers | interflow-backend/src/lib/decoders/besoins/csv.py:176-240 | a besoin is decoded iff some data row produces it |
| BesoinsCsv.DecodedSound | interflow-backend/src/lib/decoders/besoins/csv.py:209-232 | every decoded besoin comes from an accepted row and a column ≥ 9 with a parsed date and a quantity > 0 |
| BesoinsCsv.DecodedComplete | interflow-backend/src/lib/decoders/besoins/csv.py:209-232 | every column that produces a besoin contributes it to the result |
| BesoinsCsv.RejectedRowsGiveNothing | interflow-backend/src/lib/decoders/besoins/csv.py:180-190 | rows that are too short, lack a code or designation, or have an invalid code give no besoin |

## Left out

Storage, configuration and interfaces:
- Storage strategies (JSON, CSV, SQLite, S3), `_load_data`/`_save_data`, the processed-files log and the CSV export: the repositories hold their data as an in-memory sequence.
- `DataService`, `ProjectPaths`, the FastAPI routes, the display service and the analysis logger: input, output and formatting only.
- The pandas and Excel decoders, and the other CSV decoders: thin wrappers over pandas.

Values the model receives as parameters:
- Clock readings (`datetime.now()`): the current time, the analysis start, the transfer-number timestamp, and the single day string `todayIso` that the CSV decoder compares against.
- `uuid.uuid4()`: a parameter.
- Float parsing (`float(str)`) and `strptime`/`to_datetime`: parameter functions `parseNumber` and `parseDate`. The date formats tried and the pandas fallback therefore live inside `parseDate`.
- Splitting the CSV file into lines and cells: the decoder receives the lines already split.
- The receipts in progress: `AnalyseService.AnalyzeSingleMatiere` receives them as a parameter rather than reading the receipts repository.

Numbers and text:
- Floating point: quantities and weights are reals, so rounding, NaN and infinity produced by arithmetic are not modelled. NaN and the infinities enter only where a value is read: as a raw float value, or as what the number parser (`float()`) returns for texts such as "nan" and "inf".
- Datetimes: integer seconds with no time zone.
- Python's `str.lower`, `str.upper` and `str.strip` cover ASCII and Latin-1 letters, and `str.strip` removes exactly the characters of `str.isspace`: U+0009-U+000D, U+001C-U+001F, space, U+0085, U+00A0, U+1680, U+2000-U+200A, U+2028, U+2029, U+202F, U+205F and U+3000. Case mappings of other scripts are not modelled.
- `Text.IsDigits`, the model of `str.isdigit`, accepts only the ASCII digits 0-9; Python also accepts other Unicode digits (superscripts, other scripts), which `int()` may then reject.

Operations not modelled:
- `analyze_coverage`, `analyze_matiere_coverage` and `_normalize_date` in the analysis service: only their helpers are modelled.
- `filter_besoins`, `get_besoins_critiques`, the other repository getters, and the xlsx and csv import wrappers: outside the modelled core.
- The CSV decoder's unused `quantite_totale` accumulator (csv.py:186, 199-203): it does not affect the result.
- The CSV decoder's per-row exception counting and logging (csv.py:237-240): no step of the modelled row decoding can raise.
- `decode_row` does not call `is_valid_code_mp`. The model keeps this difference from `decode_file`.

Weaker contracts and modelling choices:
- Rappatriements.AjouterProduit: modelled on values, as a function returning the updated shipment. The model therefore does not capture that the caller's shipment object is changed in place.
- AnalyseService.AnalyzeSingleMatiere: the pydantic conversions (`_create_analyse_matiere_pydantic`, `_create_analyse_chronologique_pydantic`) are folded into the result record rather than modelled separately.
- AnalyseService.ExternesParMagasin: the contract states each warehouse's sum but not the order of the keys.
- AnalyseService.AnalyzeBesoins: states each copy's fields and the permutation with states erased. The order among copies with equal due dates is left unstated.
- BesoinsRepository.FilterBesoinsAdvanced: the criteria are modelled as one conjunction; the order in which the source narrows the list is not kept.
- Receptions.FromModelDump: the timestamp and uuid defaults come from parameters. Dates arrive already parsed: a creation date whose text `fromisoformat` cannot read counts as missing, and such a receipt date as None. The `date_modification`, `lot` and `qualification` defaults are not modelled, since those fields are left out.
- The `Reception` record keeps only the fields that the identifier, the state mapping and the analysis use. `lot`, `qualification`, `date_modification`, `type_ordre`, `statut_poste`, `division`, `magasin`, `libelle_article`, `ref_externe`, `description_externe`, `quantite_ordre`, `quantite_receptionnee`, `udm`, `fournisseur` and `description_fournisseur` are left out.
- Besoins.FromModelDump: a matiere stored as a `Matiere` object rather than a dictionary, and a quantity or due date of the wrong type, are not modelled. `fromIso` is taken to return the naive datetime that the code obtains after dropping the time zone.
- Stocks.NewStock: pydantic accepts a quantity of +inf (it is `>= 0`), but the model refuses it, because stored quantities are reals. The pydantic type checks of the plain text fields (a number passed as `udm`, say) are not modelled; those fields are taken as text.
- StocksRepository.FilterStocks: `getattr` also finds pydantic's own members (`model_dump`, `model_fields`, ...) and the source then compares them to the value; the model treats those names as unknown attributes and raises.
- StocksRepository.ApplyCriterion: the same as FilterStocks for pydantic's own member names.
- Rappatriements.NewProduit: builds the product with the intended float weight, which the rest of the model uses. The source takes the integer branch, so a float 12.5 is stored as 12.0, and a float -0.5 or the text "nan" is stored as 0.0 where `NewProduit` refuses it. `Rappatriements.NewProduitAsWritten` models that behaviour.
- BesoinsCsv.DecodeRow: a quantity text that `float()` reads as plus infinity ("inf", "infinity") gives the source a besoin of infinite quantity; quantities are reals in the model, so the model refuses it.
- BesoinsCsv.DecodeCell: the same for a date cell reading plus infinity: the source makes a besoin of infinite quantity, the model makes none.
- BesoinsCsv.PositiveQuantity: drops plus infinity, which passes the source's `quantite > 0` test, because quantities are reals in the model.
- Rappatriements.NewRappatriement: the date parsing of the shipment's `from_model_dump` is not modelled; the dates arrive parsed.
- Rappatriements.NewRappatriementMissingText: pydantic does not validate defaults, so a shipment built with `numero_transfert` or `remarques` omitted keeps `None` there; the model's text fields are strings, and "" stands for both `None` and "". The lemma is about an explicit `None`.
- In-place updates through shared objects: `BesoinsRepository.UpdateEtat`, `StocksRepository.UpdateQuantity`, `RappatriementsRepository.RetirerProduit` and `RappatriementsRepository.CreateRappatriement` are modelled as replacing the stored element by a new value. In the source, `get_all` (`Repository.Store.GetAll`) returns a shallow copy whose elements are the stored objects, and these methods assign to those objects (`besoin.etat`, `stock.quantite`, `rappatriement.produits`, and `numero_transfert` on the caller's own shipment); the model does not capture that a list fetched earlier, or the caller's object, sees the change. Only the aggregation's write-back is modelled with this sharing (Findings).
- The `Matiere` record keeps only `code_mp` and `nom`; `description`, `fds`, `seveso` and `internal_reference` are left out. Two consequences: the aggregation's `b.matiere == besoin.matiere` compares all six fields in the source, so besoins with equal code and name but different descriptions stay separate there, while `BesoinsRepository.SameKind` merges them; and `Besoins.MatiereFromDump` cannot express a dump whose `seveso` is not a boolean, for which the source falls back to the unknown material.

## Findings

| source | as written | input that shows it | evidently intended | confidence | as-written member | corrected member |
|---|---|---|---|---|---|---|
| interflow-backend/src/models/rappatriement.py:29-48 | the test `'poids_net' in cls.__name__` is never true, so the net weight goes through `int(float(...))` and loses its fraction | a product with `poids_net` 12.5 is stored with 12.0; a float -0.5 or the text "nan" is stored with 0.0 instead of being refused | the net weight is kept as a float | not executed | Rappatriements.PoidsNetAsWritten | Rappatriements.PoidsNet |
| interflow-backend/src/repositories/stocks_repository.py:280-281 | the lot filter reads `s.lot`, which `Stock` does not have, so it raises `AttributeError` whenever a lot is given and a stock is left to test | `filter_stocks_advanced(lot="L1")` over one stock outside warehouse "30" | filter on the supplier lot field | not executed | StocksRepository.FilterStocksAdvancedAsWritten | StocksRepository.FilterStocksAdvanced |
| interflow-backend/src/repositories/besoins_repository.py:56-70 | `get_all` returns a shallow copy, so `+=` on the first similar besoin writes the sum into the stored besoin | two alike besoins of 1.0 and 2.0 in the window: the first call reports 3.0, the second 5.0 | aggregate into copies and leave the stored besoins unchanged | not executed | BesoinsRepository.AggregationWritesBack | BesoinsRepository.AggregatedByTimelapse |
