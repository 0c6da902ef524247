/** Goods receipts (`models/reception.py`): the deterministic identifier of an
    internal receipt, the mapping of order statuses onto the unified state,
    and the defaulting of a stored dictionary. */
module Receptions {
  import opened Wrappers
  import Text
  import Raw
  import Dates
  import Besoins

  datatype EtatReception = EnCours | Terminee | Annulee | Relache | EnAttente {
    function Value(): string {
      match this
      case EnCours => "en_cours"
      case Terminee => "terminée"
      case Annulee => "annulée"
      case Relache => "relâché"
      case EnAttente => "en_attente"
    }
  }

  datatype TypeReception = Prestataire | Interne {
    function Value(): string {
      match this
      case Prestataire => "prestataire"
      case Interne => "interne"
    }
  }

  /** The post written into the identifier of an internal receipt without one. */
  const NoPoste: string := "NOPOSTE"

  /** A receipt once constructed; the fields that play no part in the model
      are left out. */
  datatype Reception = Reception(
    id: string,
    typeReception: TypeReception,
    matiere: Besoins.Matiere,
    quantite: real,
    ordre: Option<string>,
    article: Option<string>,
    poste: Option<string>,
    statutOrdre: Option<string>,
    dateCreation: Dates.DateTime,
    dateReception: Option<Dates.DateTime>,
    etat: EtatReception)

  /** The unified state of an internal receipt, from its order status in any case. */
  function EtatFromStatut(statut: string): (e: EtatReception)
    ensures Text.Upper(statut) in {"RELÂCHÉ", "RELACHE"} <==> e == Relache
    ensures Text.Upper(statut) in {"EN_ATTENTE", "EN ATTENTE"} <==> e == EnAttente
    ensures Text.Upper(statut) in {"TERMINÉ", "TERMINE"} <==> e == Terminee
    ensures Text.Upper(statut) in {"ANNULÉ", "ANNULE"} <==> e == Annulee
  {
    var u := Text.Upper(statut);
    if u in {"RELÂCHÉ", "RELACHE"} then Relache
    else if u in {"EN_ATTENTE", "EN ATTENTE"} then EnAttente
    else if u in {"TERMINÉ", "TERMINE"} then Terminee
    else if u in {"ANNULÉ", "ANNULE"} then Annulee
    else EnCours
  }

  lemma UpperOfLower(s: string)
    ensures Text.Upper(Text.Lower(s)) == Text.Upper(s)
  {
    var a, b := Text.Upper(Text.Lower(s)), Text.Upper(s);
    assert |a| == |b|;
    forall i | 0 <= i < |s| ensures a[i] == b[i] {
      assert a[i] == Text.UpperChar(Text.LowerChar(s[i]));
    }
  }

  /** The status mapping ignores case: a status spelled in lower case maps
      to the same state. */
  lemma EtatFromStatutIgnoresCase(statut: string)
    ensures EtatFromStatut(Text.Lower(statut)) == EtatFromStatut(statut)
  {
    UpperOfLower(statut);
  }

  /** The identifier of an internal receipt: order, article, day of receipt
      (of creation when there is no receipt date) and post. */
  function InternalId(ordre: string, article: string, poste: Option<string>,
                      dateReception: Option<Dates.DateTime>, dateCreation: Dates.DateTime): (id: string)
    ensures dateReception.Some? ==>
      id == ordre + "_" + article + "_" + Dates.FormatYmd(dateReception.value) + "_" + PosteOrDefault(poste)
    ensures dateReception.None? ==>
      id == ordre + "_" + article + "_" + Dates.FormatYmd(dateCreation) + "_" + PosteOrDefault(poste)
  {
    var day := Dates.FormatYmd(if dateReception.Some? then dateReception.value else dateCreation);
    ordre + "_" + article + "_" + day + "_" + PosteOrDefault(poste)
  }

  /** The post written into an identifier: the post, or NOPOSTE when there is none. */
  function PosteOrDefault(poste: Option<string>): (p: string)
    ensures poste.Some? && poste.value != "" ==> p == poste.value
    ensures poste.None? || poste.value == "" ==> p == NoPoste
  {
    if poste.Some? && poste.value != "" then poste.value else NoPoste
  }

  /** The time of day plays no part: two receipt datetimes on the same day
      give the same identifier, whatever the creation dates. */
  lemma InternalIdDependsOnDay(ordre: string, article: string, poste: Option<string>,
                               t: Dates.DateTime, u: Dates.DateTime, c1: Dates.DateTime, c2: Dates.DateTime)
    requires Dates.DayNumber(t) == Dates.DayNumber(u)
    ensures InternalId(ordre, article, poste, Some(t), c1) == InternalId(ordre, article, poste, Some(u), c2)
  {
  }

  /** The receipt built by the constructor. String fields go through the
      cleaning validator first; a negative quantity is refused. Without an
      identifier, an internal receipt with an order and an article gets
      `InternalId`, any other receipt `uuid` (a fresh random identifier). An
      internal receipt with an order status gets the state that status maps
      to; any other receipt keeps `etat`. */
  function NewReception(
    id: Option<string>, typeReception: TypeReception, matiere: Besoins.Matiere, quantite: real,
    ordre: Raw.Raw, article: Raw.Raw, poste: Raw.Raw, statutOrdre: Raw.Raw,
    dateCreation: Dates.DateTime, dateReception: Option<Dates.DateTime>,
    etat: EtatReception, uuid: string): (r: Result<Reception>)
    ensures r.Ok? <==> quantite >= 0.0
    ensures r.Ok? && id.Some? && id.value != "" ==> r.value.id == id.value
    ensures r.Ok? && (id.None? || id.value == "") ==>
      var o, a := Raw.CleanOptionalText(ordre), Raw.CleanOptionalText(article);
      r.value.id == if typeReception == Interne && o.Some? && a.Some?
                    then InternalId(o.value, a.value, Raw.CleanOptionalText(poste), dateReception, dateCreation)
                    else uuid
    ensures r.Ok? ==> var s := Raw.CleanOptionalText(statutOrdre);
      r.value.etat == if typeReception == Interne && s.Some? then EtatFromStatut(s.value) else etat
    ensures r.Ok? ==> (r.value.statutOrdre == Raw.CleanOptionalText(statutOrdre)
      && r.value.ordre == Raw.CleanOptionalText(ordre) && r.value.article == Raw.CleanOptionalText(article))
  {
    if quantite < 0.0 then Err("quantite: input should be greater than or equal to 0")
    else
      var o, a, p, s := Raw.CleanOptionalText(ordre), Raw.CleanOptionalText(article),
                        Raw.CleanOptionalText(poste), Raw.CleanOptionalText(statutOrdre);
      Raw.CleanOptionalTextIdempotent(ordre);
      Raw.CleanOptionalTextIdempotent(article);
      Raw.CleanOptionalTextIdempotent(statutOrdre);
      var rid :=
        if id.Some? && id.value != "" then id.value
        else if typeReception == Interne && o.Some? && o.value != "" && a.Some? && a.value != ""
        then InternalId(o.value, a.value, p, dateReception, dateCreation)
        else uuid;
      var e := if typeReception == Interne && s.Some? && s.value != "" then EtatFromStatut(s.value) else etat;
      Ok(Reception(rid, typeReception, matiere, quantite, o, a, p, s, dateCreation, dateReception, e))
  }

  /** Two internal receipts of the same order, article, post and receipt day
      get the same identifier, whatever random identifier was on offer. */
  lemma InternalIdIgnoresUuid(
    ordre: Raw.Raw, article: Raw.Raw, poste: Raw.Raw, statutOrdre: Raw.Raw, matiere: Besoins.Matiere,
    q1: real, q2: real, c1: Dates.DateTime, c2: Dates.DateTime, day: Dates.DateTime,
    etat: EtatReception, u1: string, u2: string)
    requires q1 >= 0.0 && q2 >= 0.0
    requires Raw.CleanOptionalText(ordre).Some? && Raw.CleanOptionalText(article).Some?
    ensures NewReception(None, Interne, matiere, q1, ordre, article, poste, statutOrdre, c1, Some(day), etat, u1).value.id
         == NewReception(None, Interne, matiere, q2, ordre, article, poste, statutOrdre, c2, Some(day), etat, u2).value.id
  {
  }

  /** A value of a stored dictionary that should hold an enum member: the
      member itself, or its value string. */
  datatype Entry<E> = Member(member: E) | Text(text: string)

  /** `TypeReception(s)`, with an unknown string read as PRESTATAIRE. */
  function TypeOfEntry(e: Option<Entry<TypeReception>>): (t: TypeReception)
    ensures e.None? ==> t == Prestataire
    ensures e.Some? && e.value.Member? ==> t == e.value.member
    ensures e.Some? && e.value.Text? ==> (t == Interne <==> e.value.text == Interne.Value())
  {
    match e
    case None => Prestataire
    case Some(Member(m)) => m
    case Some(Text(s)) => if s == Interne.Value() then Interne else Prestataire
  }

  /** The state of a stored dictionary: a member is kept, a value string maps
      to its member, anything else (or nothing) is EN_COURS. */
  function EtatOfEntry(e: Option<Entry<EtatReception>>): (r: EtatReception)
    ensures e.None? ==> r == EnCours
    ensures e.Some? && e.value.Member? ==> r == e.value.member
    ensures e.Some? && e.value.Text? && (exists m: EtatReception :: m.Value() == e.value.text) ==> r.Value() == e.value.text
    ensures e.Some? && e.value.Text? && (forall m: EtatReception :: m.Value() != e.value.text) ==> r == EnCours
  {
    match e
    case None => EnCours
    case Some(Member(m)) => m
    case Some(Text(s)) =>
      if s == EnCours.Value() then EnCours
      else if s == Terminee.Value() then Terminee
      else if s == Annulee.Value() then Annulee
      else if s == Relache.Value() then Relache
      else if s == EnAttente.Value() then EnAttente
      else EnCours
  }

  /** Every state survives being stored as its value string. */
  lemma EtatValueRoundTrip(e: EtatReception)
    ensures EtatOfEntry(Some(Text(e.Value()))) == e
  {
  }

  /** The receipt `from_model_dump` falls back to is the one the constructor
      builds from the defaults alone. */
  lemma DefaultReceptionIsConstructed(now: Dates.DateTime, uuid: string)
    ensures NewReception(None, Prestataire, Besoins.Matiere(Besoins.UnknownCode, Besoins.UnknownName), 0.0,
                         Raw.RNone, Raw.RNone, Raw.RNone, Raw.RNone, now, None, EnCours, uuid)
         == Ok(DefaultReception(now, uuid))
  {
  }

  /** A stored receipt. For the id, the material, the quantity and the
      receipt date, `None` stands for a missing key or a `None` value, which
      the code treats alike; the type, the state and the creation date tell
      the two apart. Dates are already parsed, and a creation date whose
      text does not parse counts as missing. */
  datatype ReceptionDump = ReceptionDump(
    id: Option<string>,
    typeReception: Raw.Slot<Entry<TypeReception>>,
    matiere: Option<Besoins.MatiereDump>,
    quantite: Option<real>,
    ordre: Raw.Raw, article: Raw.Raw, poste: Raw.Raw, statutOrdre: Raw.Raw,
    dateCreation: Raw.Slot<Dates.DateTime>,
    dateReception: Option<Dates.DateTime>,
    etat: Raw.Slot<Entry<EtatReception>>)

  /** The entry of a key that is not `None`, or `None` for a missing key. */
  function Given<T>(s: Raw.Slot<T>): (o: Option<T>)
    requires !s.Null?
    ensures s.Missing? <==> o.None?
    ensures s.Present? ==> o == Some(s.value)
  {
    if s.Present? then Some(s.value) else None
  }

  /** The all-default receipt of the last resort: PRESTATAIRE, the unknown
      material, quantity 0, created `now`, EN_COURS, with the random identifier. */
  function DefaultReception(now: Dates.DateTime, uuid: string): Reception {
    Reception(uuid, Prestataire, Besoins.Matiere(Besoins.UnknownCode, Besoins.UnknownName), 0.0,
              None, None, None, None, now, None, EnCours)
  }

  /** Whether the first construction in `from_model_dump` succeeds: no key it
      needs holds `None`, and the quantity is not negative. */
  predicate Constructible(d: ReceptionDump) {
    !d.typeReception.Null? && !d.etat.Null? && !d.dateCreation.Null?
    && (d.quantite.None? || d.quantite.value >= 0.0)
  }

  /** `from_model_dump`: missing fields get their defaults (type PRESTATAIRE,
      quantity 0, creation date `now`, state EN_COURS, unknown material) and
      the receipt is built from them; when that construction fails (a
      negative quantity, or `None` under the type, the state or the creation
      date) the receipt falls back to the all-default receipt. */
  function FromModelDump(d: ReceptionDump, now: Dates.DateTime, uuid: string): (r: Reception)
    ensures !Constructible(d) ==> r == DefaultReception(now, uuid)
    ensures Constructible(d) ==>
      var m := if d.matiere.None? then Besoins.Matiere(Besoins.UnknownCode, Besoins.UnknownName)
               else Besoins.MatiereFromDump(d.matiere.value);
      var built := NewReception(d.id, TypeOfEntry(Given(d.typeReception)), m, d.quantite.GetOr(0.0),
                                d.ordre, d.article, d.poste, d.statutOrdre, Given(d.dateCreation).GetOr(now),
                                d.dateReception, EtatOfEntry(Given(d.etat)), uuid);
      built.Ok? && r == built.value
    ensures Constructible(d) ==>
      (r.typeReception == TypeOfEntry(Given(d.typeReception))
       && (d.matiere.None? ==> r.matiere == Besoins.Matiere(Besoins.UnknownCode, Besoins.UnknownName))
       && (d.quantite.None? ==> r.quantite == 0.0)
       && (d.dateCreation.Missing? ==> r.dateCreation == now)
       && (d.dateCreation.Present? ==> r.dateCreation == d.dateCreation.value))
  {
    if !Constructible(d) then DefaultReception(now, uuid)
    else
      var t := TypeOfEntry(Given(d.typeReception));
      var m := if d.matiere.None? then Besoins.Matiere(Besoins.UnknownCode, Besoins.UnknownName)
               else Besoins.MatiereFromDump(d.matiere.value);
      var q := d.quantite.GetOr(0.0);
      var c := Given(d.dateCreation).GetOr(now);
      match NewReception(d.id, t, m, q, d.ordre, d.article, d.poste, d.statutOrdre, c, d.dateReception,
                         EtatOfEntry(Given(d.etat)), uuid)
      case Ok(rec) => rec
      case Err(_) => DefaultReception(now, uuid)
  }
}
