/** Repatriation shipments (`models/rappatriement.py`): the products they
    carry, the validators of the product fields and the shipment totals. */
module Rappatriements {
  import opened Wrappers
  import Text
  import Raw
  import Seqs
  import Dates

  /** One product line of a shipment, once validated. */
  datatype Produit = Produit(
    prelevement: bool,
    codePrdt: string,
    designationPrdt: string,
    lot: string,
    poidsNet: real,
    typeEmballage: string,
    stockSolde: bool,
    nbContenants: nat,
    nbPalettes: nat,
    dimensionPalettes: string,
    codeOnu: string,
    grpEmballage: string,
    po: string)

  /** A shipment. A missing transfer number is the empty string, as the
      string validator makes it; so is a missing `remarques`, because that
      validator's test for it looks for "remarques" in the class name, which
      is never there. */
  datatype Rappatriement = Rappatriement(
    numeroTransfert: string,
    dateDerniereMaj: Option<Dates.DateTime>,
    responsableDiffusion: string,
    dateDemande: Option<Dates.DateTime>,
    dateReceptionSouhaitee: Option<Dates.DateTime>,
    contacts: string,
    adresseDestinataire: string,
    adresseEnlevement: string,
    produits: seq<Produit>,
    remarques: string)

  /** The "for sampling" flag: a boolean is kept; `None`, NaN and the
      placeholders give false; any other value is true exactly when its
      stripped, lower-cased text is "pour prlvm". */
  function NormalizePrelevement(v: Raw.Raw): (r: bool)
    ensures v.RBool? ==> r == v.b
    ensures v.RNone? || Raw.IsNaN(v) ==> !r
    ensures !v.RNone? && !v.RBool? && !Raw.IsNaN(v) ==>
      (r <==> Text.Lower(Text.Strip(Raw.Str(v))) == "pour prlvm")
  {
    match v
    case RNone => false
    case RBool(b) => b
    case RStr(s) => TextIsPrelevement(s)
    case _ => if Raw.IsNaN(v) then false else TextIsPrelevement(Raw.Str(v))
  }

  /** The text test of `normalize_prelevement`: a placeholder gives false,
      anything else is compared, stripped and lower-cased, with "pour prlvm". */
  function TextIsPrelevement(s: string): (r: bool)
    ensures r <==> Text.Lower(Text.Strip(s)) == "pour prlvm"
  {
    if Text.IsPlaceholder(s) then PlaceholderIsNotPrelevement(s); false
    else Text.Lower(Text.Strip(s)) == "pour prlvm"
  }

  lemma PlaceholderIsNotPrelevement(s: string)
    requires Text.IsPlaceholder(s)
    ensures Text.Lower(Text.Strip(s)) != "pour prlvm"
  {
    assert |Text.Lower(Text.Strip(s))| <= 4;
  }

  /** The "stock cleared" flag: a boolean is kept, a string is true exactly
      when its lower-cased, stripped text is oui, yes, true, 1 or x, a number
      is true exactly when it is not zero (NaN counts as not zero). */
  function NormalizeBool(v: Raw.Raw): (r: bool)
    ensures v.RNone? ==> !r
    ensures v.RBool? ==> r == v.b
    ensures v.RStr? ==> (r <==> Text.Strip(Text.Lower(v.s)) in {"oui", "yes", "true", "1", "x"})
    ensures v.RInt? ==> (r <==> v.i != 0)
    ensures v.RFloat? ==> (r <==> v.f != Raw.Finite(0.0))
  {
    match v
    case RNone => false
    case RBool(b) => b
    case RStr(s) => Text.Strip(Text.Lower(s)) in {"oui", "yes", "true", "1", "x"}
    case RInt(i) => i != 0
    case RFloat(f, _) => f != Raw.Finite(0.0)
  }

  /** The numeric validator as written for `nb_contenants` and `nb_palettes`
      (and, because its test looks for "poids_net" in the class name, for
      `poids_net` too): every value goes through `int()`. A float NaN or an
      infinity makes `int()` raise outside the guarded block; parsed text
      that is not a number gives 0, as does parsed NaN, while a parsed
      infinity raises. */
  function NormalizeCount(v: Raw.Raw, parse: string -> Option<Raw.Number>): (r: Result<int>)
    ensures v.RNone? ==> r == Ok(0)
    ensures v.RInt? ==> r == Ok(v.i)
    ensures v.RFloat? ==> (r.Ok? <==> v.f.Finite?)
    ensures v.RFloat? && v.f.Finite? ==> r == Ok(Raw.Trunc(v.f.x))
    ensures v.RStr? ==> (r.Err? <==> parse(Raw.CommaToDot(Text.Strip(v.s))).Some?
                                     && parse(Raw.CommaToDot(Text.Strip(v.s))).value.Inf?)
  {
    match v
    case RNone => Ok(0)
    case RBool(b) => Ok(if b then 1 else 0)
    case RInt(i) => Ok(i)
    case RFloat(f, _) =>
      if f.Finite? then Ok(Raw.Trunc(f.x)) else Err("cannot convert float to integer")
    case RStr(s) =>
      match parse(Raw.CommaToDot(Text.Strip(s)))
      case None => Ok(0)
      case Some(Finite(x)) => Ok(Raw.Trunc(x))
      case Some(NaN) => Ok(0)
      case Some(Inf(_)) => Err("cannot convert float infinity to integer")
  }

  /** The weight of a product as written: the integer branch of the numeric
      validator, then the `ge=0` check of the float field. */
  function PoidsNetAsWritten(v: Raw.Raw, parse: string -> Option<Raw.Number>): (r: Result<real>)
    ensures r.Ok? ==> r.value >= 0.0 && r.value == r.value.Floor as real
  {
    var n :- NormalizeCount(v, parse);
    if n < 0 then Err("poids_net: input should be greater than or equal to 0") else Ok(n as real)
  }

  /** The weight of a product as the validator evidently means it: the float
      branch, then the `ge=0` check (NaN fails it). */
  function PoidsNet(v: Raw.Raw, parse: string -> Option<Raw.Number>): (r: Result<real>)
    ensures v.RFloat? && v.f.Finite? && v.f.x >= 0.0 ==> r == Ok(v.f.x)
    ensures v.RInt? && v.i >= 0 ==> r == Ok(v.i as real)
    ensures v.RNone? ==> r == Ok(0.0)
    ensures r.Ok? ==> r.value >= 0.0
  {
    match Raw.FloatField(v, parse)
    case Finite(x) => if x >= 0.0 then Ok(x) else Err("poids_net: input should be greater than or equal to 0")
    case NaN => Err("poids_net: input should be greater than or equal to 0")
    case Inf(neg) => Err("poids_net: infinite weights are not modelled")
  }

  /** A fractional weight read from a spreadsheet cell loses its fractional
      part as written, and keeps it in the corrected validator. */
  lemma PoidsNetTruncated(parse: string -> Option<Raw.Number>)
    ensures PoidsNetAsWritten(Raw.RFloat(Raw.Finite(12.5), "12.5"), parse) == Ok(12.0)
    ensures PoidsNet(Raw.RFloat(Raw.Finite(12.5), "12.5"), parse) == Ok(12.5)
  {
    assert Raw.Trunc(12.5) == 12;
  }

  /** As written, a non-negative finite weight is rounded down to a whole
      number; the corrected validator keeps it. */
  lemma PoidsNetAsWrittenIsFloor(x: real, text: string, parse: string -> Option<Raw.Number>)
    requires x >= 0.0
    ensures PoidsNetAsWritten(Raw.RFloat(Raw.Finite(x), text), parse) == Ok(x.Floor as real)
    ensures PoidsNet(Raw.RFloat(Raw.Finite(x), text), parse) == Ok(x)
  {
  }

  /** A product line: every field validated, then the `ge=0` checks of the
      weight and of the two counts. `po` is declared optional, but the test
      of its string validator looks for "po" in the class name, which is
      never there, so a missing `po` becomes "" like the other text fields. */
  function NewProduit(
    prelevement: Raw.Raw, codePrdt: Raw.Raw, designationPrdt: Raw.Raw, lot: Raw.Raw,
    poidsNet: Raw.Raw, typeEmballage: Raw.Raw, stockSolde: Raw.Raw,
    nbContenants: Raw.Raw, nbPalettes: Raw.Raw, dimensionPalettes: Raw.Raw, codeOnu: Raw.Raw,
    grpEmballage: Raw.Raw, po: Raw.Raw, parse: string -> Option<Raw.Number>): (r: Result<Produit>)
    ensures r.Ok? <==>
      PoidsNet(poidsNet, parse).Ok?
      && NormalizeCount(nbContenants, parse).Ok? && NormalizeCount(nbContenants, parse).value >= 0
      && NormalizeCount(nbPalettes, parse).Ok? && NormalizeCount(nbPalettes, parse).value >= 0
    ensures r.Ok? ==> (r.value.poidsNet == PoidsNet(poidsNet, parse).value
      && r.value.nbContenants == NormalizeCount(nbContenants, parse).value
      && r.value.nbPalettes == NormalizeCount(nbPalettes, parse).value
      && r.value.codePrdt == Raw.CleanText(codePrdt)
      && r.value.designationPrdt == Raw.CleanText(designationPrdt)
      && r.value.lot == Raw.CleanText(lot)
      && r.value.typeEmballage == Raw.CleanText(typeEmballage)
      && r.value.prelevement == NormalizePrelevement(prelevement)
      && r.value.stockSolde == NormalizeBool(stockSolde))
    ensures r.Ok? ==> (r.value.dimensionPalettes == Raw.CleanText(dimensionPalettes)
      && r.value.codeOnu == Raw.CleanText(codeOnu) && r.value.grpEmballage == Raw.CleanText(grpEmballage)
      && r.value.po == Raw.CleanText(po))
  {
    var poids :- PoidsNet(poidsNet, parse);
    var contenants :- NormalizeCount(nbContenants, parse);
    var palettes :- NormalizeCount(nbPalettes, parse);
    if contenants < 0 then Err("nb_contenants: input should be greater than or equal to 0")
    else if palettes < 0 then Err("nb_palettes: input should be greater than or equal to 0")
    else
      Ok(Produit(NormalizePrelevement(prelevement), Raw.CleanText(codePrdt), Raw.CleanText(designationPrdt),
                 Raw.CleanText(lot), poids, Raw.CleanText(typeEmballage), NormalizeBool(stockSolde),
                 contenants, palettes, Raw.CleanText(dimensionPalettes), Raw.CleanText(codeOnu),
                 Raw.CleanText(grpEmballage), Raw.CleanText(po)))
  }

  /** The product line as written: the weight goes through the integer
      branch of the numeric validator (`PoidsNetAsWritten`). Apart from the
      weight it is the product `NewProduit` builds. */
  function NewProduitAsWritten(
    prelevement: Raw.Raw, codePrdt: Raw.Raw, designationPrdt: Raw.Raw, lot: Raw.Raw,
    poidsNet: Raw.Raw, typeEmballage: Raw.Raw, stockSolde: Raw.Raw,
    nbContenants: Raw.Raw, nbPalettes: Raw.Raw, dimensionPalettes: Raw.Raw, codeOnu: Raw.Raw,
    grpEmballage: Raw.Raw, po: Raw.Raw, parse: string -> Option<Raw.Number>): (r: Result<Produit>)
    ensures r.Ok? <==>
      PoidsNetAsWritten(poidsNet, parse).Ok?
      && NormalizeCount(nbContenants, parse).Ok? && NormalizeCount(nbContenants, parse).value >= 0
      && NormalizeCount(nbPalettes, parse).Ok? && NormalizeCount(nbPalettes, parse).value >= 0
    ensures r.Ok? ==> r.value.poidsNet == PoidsNetAsWritten(poidsNet, parse).value
    ensures var intended := NewProduit(prelevement, codePrdt, designationPrdt, lot, poidsNet, typeEmballage,
                                       stockSolde, nbContenants, nbPalettes, dimensionPalettes, codeOnu,
                                       grpEmballage, po, parse);
      r.Ok? && intended.Ok? ==> r.value == intended.value.(poidsNet := r.value.poidsNet)
  {
    var poids :- PoidsNetAsWritten(poidsNet, parse);
    var contenants :- NormalizeCount(nbContenants, parse);
    var palettes :- NormalizeCount(nbPalettes, parse);
    if contenants < 0 then Err("nb_contenants: input should be greater than or equal to 0")
    else if palettes < 0 then Err("nb_palettes: input should be greater than or equal to 0")
    else
      Ok(Produit(NormalizePrelevement(prelevement), Raw.CleanText(codePrdt), Raw.CleanText(designationPrdt),
                 Raw.CleanText(lot), poids, Raw.CleanText(typeEmballage), NormalizeBool(stockSolde),
                 contenants, palettes, Raw.CleanText(dimensionPalettes), Raw.CleanText(codeOnu),
                 Raw.CleanText(grpEmballage), Raw.CleanText(po)))
  }

  /** Weights on which the two readings of the validator part: as written, a
      float of -0.5 truncates to 0 and the text "nan" falls into the
      `ValueError` handler, so both give a weight of 0, where the intended
      float reading refuses them (NaN and negative numbers fail `ge=0`). */
  lemma PoidsNetAsWrittenAcceptsMore(nan: string, parse: string -> Option<Raw.Number>)
    requires nan == "nan" && parse(nan) == Some(Raw.NaN)
    ensures PoidsNetAsWritten(Raw.RFloat(Raw.Finite(-0.5), "-0.5"), parse) == Ok(0.0)
    ensures PoidsNet(Raw.RFloat(Raw.Finite(-0.5), "-0.5"), parse).Err?
    ensures PoidsNetAsWritten(Raw.RStr(nan), parse) == Ok(0.0)
    ensures PoidsNet(Raw.RStr(nan), parse).Err?
  {
    assert Raw.Trunc(-0.5) == 0;
    NanTextIsClean(nan);
  }

  /** The text "nan" comes out of the numeric validator's cleaning unchanged. */
  lemma NanTextIsClean(nan: string)
    requires nan == "nan"
    ensures Raw.CommaToDot(Text.Strip(nan)) == nan
  {
    assert !Text.IsSpace(nan[0]) && !Text.IsSpace(nan[|nan| - 1]);
    Text.StripUnchanged(nan);
    assert forall i :: 0 <= i < |nan| ==> nan[i] != ',';
  }

  /** A shipment: its six text fields go through the string validator,
      which turns `None`, NaN and the placeholders into "" and strips
      anything else; the dates and the products are kept. */
  function NewRappatriement(
    numeroTransfert: Raw.Raw, dateDerniereMaj: Option<Dates.DateTime>, responsableDiffusion: Raw.Raw,
    dateDemande: Option<Dates.DateTime>, dateReceptionSouhaitee: Option<Dates.DateTime>, contacts: Raw.Raw,
    adresseDestinataire: Raw.Raw, adresseEnlevement: Raw.Raw, produits: seq<Produit>,
    remarques: Raw.Raw): (r: Rappatriement)
    ensures r.numeroTransfert == Raw.CleanText(numeroTransfert) && r.contacts == Raw.CleanText(contacts)
    ensures r.responsableDiffusion == Raw.CleanText(responsableDiffusion)
    ensures r.adresseDestinataire == Raw.CleanText(adresseDestinataire)
    ensures r.adresseEnlevement == Raw.CleanText(adresseEnlevement)
    ensures r.remarques == Raw.CleanText(remarques)
    ensures r.dateDerniereMaj == dateDerniereMaj && r.dateDemande == dateDemande
    ensures r.dateReceptionSouhaitee == dateReceptionSouhaitee && r.produits == produits
  {
    Rappatriement(Raw.CleanText(numeroTransfert), dateDerniereMaj, Raw.CleanText(responsableDiffusion),
                  dateDemande, dateReceptionSouhaitee, Raw.CleanText(contacts),
                  Raw.CleanText(adresseDestinataire), Raw.CleanText(adresseEnlevement), produits,
                  Raw.CleanText(remarques))
  }

  /** A shipment whose remarks or transfer number are given as `None` has
      "" for them, which is what `create_rappatriement` tests before
      generating a number. (An omitted field keeps its unvalidated default
      `None`; the model writes "" for both.) */
  lemma NewRappatriementMissingText(
    dateDerniereMaj: Option<Dates.DateTime>, responsableDiffusion: Raw.Raw,
    dateDemande: Option<Dates.DateTime>, dateReceptionSouhaitee: Option<Dates.DateTime>, contacts: Raw.Raw,
    adresseDestinataire: Raw.Raw, adresseEnlevement: Raw.Raw, produits: seq<Produit>)
    ensures var r := NewRappatriement(Raw.RNone, dateDerniereMaj, responsableDiffusion, dateDemande,
                                      dateReceptionSouhaitee, contacts, adresseDestinataire,
                                      adresseEnlevement, produits, Raw.RNone);
            r.remarques == "" && r.numeroTransfert == ""
  {
  }

  function PoidsOf(p: Produit): real { p.poidsNet }
  function PalettesOf(p: Produit): int { p.nbPalettes }
  function ContenantsOf(p: Produit): int { p.nbContenants }

  /** Total net weight of the shipment. */
  function PoidsTotal(r: Rappatriement): (w: real)
    ensures r.produits == [] ==> w == 0.0
  {
    Seqs.Sum(r.produits, PoidsOf)
  }

  /** Weights that passed the `ge=0` check add up to a weight that does too. */
  lemma PoidsTotalNonNegative(r: Rappatriement)
    requires forall p :: p in r.produits ==> p.poidsNet >= 0.0
    ensures PoidsTotal(r) >= 0.0
  {
    Seqs.SumNonNegative(r.produits, PoidsOf);
  }

  /** Total number of pallets of the shipment. */
  function NbPalettesTotal(r: Rappatriement): (n: int)
    ensures r.produits == [] ==> n == 0
  {
    Seqs.SumInt(r.produits, PalettesOf)
  }

  /** Total number of containers of the shipment. */
  function NbContenantsTotal(r: Rappatriement): (n: int)
    ensures r.produits == [] ==> n == 0
  {
    Seqs.SumInt(r.produits, ContenantsOf)
  }

  /** The shipment with one more product at the end. */
  function AjouterProduit(r: Rappatriement, p: Produit): (r': Rappatriement)
    ensures |r'.produits| == |r.produits| + 1
    ensures r'.produits[..|r.produits|] == r.produits && r'.produits[|r.produits|] == p
    ensures r' == r.(produits := r'.produits)
  {
    r.(produits := r.produits + [p])
  }

  /** Adding a product adds its weight, pallets and containers to the totals. */
  lemma AjouterProduitTotals(r: Rappatriement, p: Produit)
    ensures PoidsTotal(AjouterProduit(r, p)) == PoidsTotal(r) + p.poidsNet
    ensures NbPalettesTotal(AjouterProduit(r, p)) == NbPalettesTotal(r) + p.nbPalettes
    ensures NbContenantsTotal(AjouterProduit(r, p)) == NbContenantsTotal(r) + p.nbContenants
  {
    Seqs.SumAppend(r.produits, [p], PoidsOf);
    Seqs.SumIntAppend(r.produits, [p], PalettesOf);
    Seqs.SumIntAppend(r.produits, [p], ContenantsOf);
  }

  /** The pallet and container totals of a shipment are never negative. */
  lemma {:induction false} CountTotalsNonNegative(ps: seq<Produit>)
    ensures Seqs.SumInt(ps, PalettesOf) >= 0 && Seqs.SumInt(ps, ContenantsOf) >= 0
  {
    if ps != [] {
      CountTotalsNonNegative(ps[1..]);
    }
  }
}
