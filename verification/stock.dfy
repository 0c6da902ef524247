/** The stock line of a warehouse (`models/stock.py`): its field validators,
    its composite identifier and its default material. */
module Stocks {
  import opened Wrappers
  import Text
  import Raw
  import Besoins
  import Dates

  /** The material code given to a stock line whose material is not known yet. */
  const PendingCode := "TOBEDEFINED"

  /** One stock line once validated. `capacite` is what its validator produced. */
  datatype Stock = Stock(
    id: string,
    article: string,
    libelleArticle: string,
    du: Option<string>,
    quantite: real,
    udm: string,
    statutLot: string,
    division: string,
    magasin: string,
    emplacement: string,
    contenant: string,
    statutProprete: string,
    reutilisable: string,
    statutContenant: string,
    classification: Option<string>,
    restriction: Option<string>,
    lotFournisseur: Option<string>,
    capacite: Raw.Number,
    commentaire: Option<string>,
    dateCreation: Option<Dates.DateTime>,
    dluo: Option<Dates.DateTime>,
    matiere: Option<Besoins.Matiere>)

  /** The keyword arguments of the constructor. An `id` argument is left out:
      the constructor always replaces it by the composite identifier. */
  datatype StockInput = StockInput(
    article: string,
    libelleArticle: string,
    du: Raw.Raw,
    quantite: Raw.Raw,
    udm: string,
    statutLot: string,
    division: Raw.Raw,
    magasin: string,
    emplacement: string,
    contenant: string,
    statutProprete: string,
    reutilisable: string,
    statutContenant: string,
    classification: Raw.Raw,
    restriction: Raw.Raw,
    lotFournisseur: Raw.Raw,
    capacite: Raw.Raw,
    commentaire: Raw.Raw,
    dateCreation: Option<Dates.DateTime>,
    dluo: Option<Dates.DateTime>,
    matiere: Option<Besoins.Matiere>)

  /** The division code of stripped text: an all-digit code of two or more
      digits loses its leading zeros when what is left has at most four
      characters; anything else is kept. */
  function DivisionCode(s: string): (r: string)
    ensures r == s || (Text.IsDigits(s) && |s| > 1 && r == Text.StripLeadingZeros(s) && |r| <= 4)
    ensures Text.IsDigits(s) && |s| > 1 && |Text.StripLeadingZeros(s)| <= 4 ==> r == Text.StripLeadingZeros(s)
    ensures !(Text.IsDigits(s) && |s| > 1 && |Text.StripLeadingZeros(s)| <= 4) ==> r == s
  {
    if Text.IsDigits(s) && |s| > 1 then
      var n := Text.StripLeadingZeros(s);
      if |n| <= 4 then n else s
    else s
  }

  /** Division codes: an empty value gives "", anything else the division
      code of its stripped text. */
  function NormalizeDivision(v: Raw.Raw): (r: string)
    ensures !Raw.Truthy(v) ==> r == ""
    ensures Raw.Truthy(v) ==> r == DivisionCode(Text.Strip(Raw.Str(v)))
  {
    if !Raw.Truthy(v) then "" else DivisionCode(Text.Strip(Raw.Str(v)))
  }

  /** Removing leading zeros from a digit string removes zeros only, keeps a
      digit string, and leaves no leading zero except in "0". */
  lemma {:induction false} StripLeadingZerosOfDigits(s: string)
    requires Text.IsDigits(s)
    ensures var r := Text.StripLeadingZeros(s);
      Text.IsDigits(r) && r == s[|s| - |r|..]
      && (forall i :: 0 <= i < |s| - |r| ==> s[i] == '0')
      && (|r| > 1 ==> r[0] != '0')
      && Text.StripLeadingZeros(r) == r
  {
    if |s| > 1 && s[0] == '0' {
      StripLeadingZerosOfDigits(s[1..]);
    }
  }

  /** `str(int(s))` keeps the number a digit string spells. */
  lemma {:induction false} StripLeadingZerosValue(s: string)
    requires Text.IsDigits(s)
    ensures Text.DecimalValue(Text.StripLeadingZeros(s)) == Text.DecimalValue(s)
  {
    if |s| > 1 && s[0] == '0' {
      StripLeadingZerosValue(s[1..]);
      assert s == "0" + s[1..];
      Text.LeadingZeroValue(s[1..]);
    }
  }

  /** A normalised all-digit division code spells the same number as the
      text it came from. */
  lemma DivisionCodeKeepsValue(s: string)
    requires Text.IsDigits(s)
    ensures Text.IsDigits(DivisionCode(s))
    ensures Text.DecimalValue(DivisionCode(s)) == Text.DecimalValue(s)
  {
    StripLeadingZerosOfDigits(s);
    StripLeadingZerosValue(s);
  }

  /** A division code is its own division code, and has nothing to strip
      when the text it came from had nothing to strip. */
  lemma DivisionCodeIdempotent(s: string)
    requires Text.Strip(s) == s
    ensures DivisionCode(DivisionCode(s)) == DivisionCode(s)
    ensures Text.Strip(DivisionCode(s)) == DivisionCode(s)
  {
    if Text.IsDigits(s) && |s| > 1 {
      StripLeadingZerosOfDigits(s);
      var n := Text.StripLeadingZeros(s);
      if |n| <= 4 {
        assert !Text.IsSpace(n[0]) && !Text.IsSpace(n[|n| - 1]) by {
          assert Text.IsAsciiDigit(n[0]) && Text.IsAsciiDigit(n[|n| - 1]);
        }
        Text.StripUnchanged(n);
      }
    }
  }

  /** Normalising a division code that is already normalised changes nothing. */
  lemma NormalizeDivisionIdempotent(v: Raw.Raw)
    ensures NormalizeDivision(Raw.RStr(NormalizeDivision(v))) == NormalizeDivision(v)
  {
    if Raw.Truthy(v) {
      var s := Text.Strip(Raw.Str(v));
      Text.StripIdempotent(Raw.Str(v));
      DivisionCodeIdempotent(s);
    }
  }

  /** A normalised division code never carries a leading zero unless it is a
      single digit or longer than four characters. */
  lemma {:induction false} NormalizedDivisionHasNoLeadingZero(v: Raw.Raw)
    ensures var r := NormalizeDivision(v);
      Text.IsDigits(r) && |r| > 1 && r[0] == '0' ==> |r| > 4
  {
    if Raw.Truthy(v) {
      DivisionCodeNoLeadingZero(Text.Strip(Raw.Str(v)));
    }
  }

  lemma {:induction false} DivisionCodeNoLeadingZero(s: string)
    ensures var r := DivisionCode(s);
      Text.IsDigits(r) && |r| > 1 && r[0] == '0' ==> |r| > 4
  {
    if Text.IsDigits(s) && |s| > 1 && |Text.StripLeadingZeros(s)| <= 4 {
      StripLeadingZerosOfDigits(s);
    }
  }

  /** The integer spelling of a supplier lot: every ".0" removed when the
      text ends in ".0" and what is left is all digits, the text itself otherwise. */
  function IntegerLot(s: string): (r: string)
    ensures r == s || (Text.EndsWith(s, ".0") && Text.IsDigits(r))
    ensures Text.EndsWith(s, ".0") && Text.IsDigits(Text.ReplaceAll(s, ".0", "")) ==> r == Text.ReplaceAll(s, ".0", "")
    ensures !(Text.EndsWith(s, ".0") && Text.IsDigits(Text.ReplaceAll(s, ".0", ""))) ==> r == s
  {
    var cleaned := Text.ReplaceAll(s, ".0", "");
    if Text.EndsWith(s, ".0") && Text.IsDigits(cleaned) then cleaned else s
  }

  /** Supplier lot numbers: an empty value gives `None`, anything else the
      integer spelling of its stripped text. */
  function NormalizeLotFournisseur(v: Raw.Raw): (r: Option<string>)
    ensures !Raw.Truthy(v) <==> r.None?
    ensures r.Some? ==> r.value == IntegerLot(Text.Strip(Raw.Str(v)))
  {
    if !Raw.Truthy(v) then None else Some(IntegerLot(Text.Strip(Raw.Str(v))))
  }

  lemma {:induction false} ReplacePoint0AfterDigits(d: string)
    requires forall i :: 0 <= i < |d| ==> Text.IsAsciiDigit(d[i])
    ensures Text.ReplaceAll(d + ".0", ".0", "") == d
  {
    if d == [] {
      assert Text.ReplaceAll(".0"[2..], ".0", "") == [];
    } else {
      assert !Text.StartsWith(d + ".0", ".0") by { assert (d + ".0")[0] == d[0]; }
      assert (d + ".0")[1..] == d[1..] + ".0";
      ReplacePoint0AfterDigits(d[1..]);
    }
  }

  /** A lot number a spreadsheet turned into a float ("12345.0") gets its
      integer spelling back. */
  lemma IntegerLotOfFloatSpelling(d: string)
    requires Text.IsDigits(d)
    ensures IntegerLot(d + ".0") == d
  {
    ReplacePoint0AfterDigits(d);
    Text.EndsWithAppend(d, ".0");
  }

  /** On text with nothing to strip, the validator is the integer spelling. */
  lemma LotOfStrippedText(s: string)
    requires Text.Strip(s) == s && s != []
    ensures NormalizeLotFournisseur(Raw.RStr(s)) == Some(IntegerLot(s))
  {
    var v := Raw.RStr(s);
    assert Raw.Truthy(v) && Raw.Str(v) == s;
    var r := NormalizeLotFournisseur(v);
    assert r.value == IntegerLot(Text.Strip(Raw.Str(v)));
  }

  /** The numeric validator of `quantite` and `capacite`. Its test for a
      missing value looks for "capacite" in the class name "Stock", which is
      never there, so `None` always gives 0.0, for `capacite` too. */
  function NormalizeNumeric(v: Raw.Raw, parse: string -> Option<Raw.Number>): (r: Raw.Number)
    ensures v.RNone? ==> r == Raw.Finite(0.0)
    ensures v.RInt? ==> r == Raw.Finite(v.i as real)
    ensures v.RFloat? ==> r == v.f
  {
    Raw.FloatField(v, parse)
  }

  /** The stock line built by the constructor: validation (a quantity that is
      not a number at least 0 is refused; the free-text fields `du`,
      `classification`, `restriction` and `commentaire` are cleaned), then the
      default material named after the article label, then the composite
      identifier. */
  function NewStock(a: StockInput, parse: string -> Option<Raw.Number>): (r: Result<Stock>)
    ensures var q := NormalizeNumeric(a.quantite, parse);
      r.Ok? <==> q.Finite? && q.x >= 0.0
    ensures r.Ok? ==> r.value.id == a.article + "_" + a.magasin + "_" + a.emplacement + "_" + a.contenant
    ensures r.Ok? ==> r.value.quantite == NormalizeNumeric(a.quantite, parse).x
    ensures r.Ok? && a.matiere.None? ==> r.value.matiere == Some(Besoins.Matiere(PendingCode, a.libelleArticle))
    ensures r.Ok? && a.matiere.Some? ==> r.value.matiere == a.matiere
    ensures r.Ok? ==> (r.value.division == NormalizeDivision(a.division)
      && r.value.lotFournisseur == NormalizeLotFournisseur(a.lotFournisseur)
      && r.value.capacite == NormalizeNumeric(a.capacite, parse))
    ensures r.Ok? ==> (r.value.du == Raw.CleanOptionalText(a.du)
      && r.value.classification == Raw.CleanOptionalText(a.classification)
      && r.value.restriction == Raw.CleanOptionalText(a.restriction)
      && r.value.commentaire == Raw.CleanOptionalText(a.commentaire))
    ensures r.Ok? ==> (r.value.article == a.article && r.value.libelleArticle == a.libelleArticle
      && r.value.udm == a.udm && r.value.statutLot == a.statutLot && r.value.magasin == a.magasin
      && r.value.emplacement == a.emplacement && r.value.contenant == a.contenant
      && r.value.statutProprete == a.statutProprete && r.value.reutilisable == a.reutilisable
      && r.value.statutContenant == a.statutContenant
      && r.value.dateCreation == a.dateCreation && r.value.dluo == a.dluo)
  {
    var q := NormalizeNumeric(a.quantite, parse);
    if !(q.Finite? && q.x >= 0.0) then Err("quantite: input should be greater than or equal to 0")
    else
      Ok(Stock(
        a.article + "_" + a.magasin + "_" + a.emplacement + "_" + a.contenant,
        a.article, a.libelleArticle, Raw.CleanOptionalText(a.du), q.x, a.udm, a.statutLot,
        NormalizeDivision(a.division), a.magasin, a.emplacement, a.contenant,
        a.statutProprete, a.reutilisable, a.statutContenant,
        Raw.CleanOptionalText(a.classification), Raw.CleanOptionalText(a.restriction),
        NormalizeLotFournisseur(a.lotFournisseur), NormalizeNumeric(a.capacite, parse),
        Raw.CleanOptionalText(a.commentaire), a.dateCreation, a.dluo,
        if a.matiere.None? then Some(Besoins.Matiere(PendingCode, a.libelleArticle)) else a.matiere))
  }

  /** Two stock lines built for the same article, warehouse, location and
      container get the same identifier whatever their other fields. */
  lemma StockIdIsComposite(a1: StockInput, a2: StockInput, parse: string -> Option<Raw.Number>)
    requires a1.article == a2.article && a1.magasin == a2.magasin
    requires a1.emplacement == a2.emplacement && a1.contenant == a2.contenant
    requires NewStock(a1, parse).Ok? && NewStock(a2, parse).Ok?
    ensures NewStock(a1, parse).value.id == NewStock(a2, parse).value.id
  {
  }
}
