/** Demand events ("besoins") and the materials they refer to:
    models/besoin.py and models/matieres.py. */
module Besoins {
  import opened Wrappers
  import Text
  import Dates
  import Raw

  /** Coverage state of a besoin, with the string each enum member serialises to. */
  datatype Etat = Inconnu | Partiel | Couvert | NonCouvert {
    function Value(): string {
      match this
      case Inconnu => "inconnu"
      case Partiel => "partiel"
      case Couvert => "couvert"
      case NonCouvert => "non_couvert"
    }
  }

  /** `Etat(s)`: the member whose value is `s`, if any. */
  function EtatFromValue(s: string): (r: Option<Etat>)
    ensures r.Some? ==> r.value.Value() == s
    ensures r.None? ==> forall e: Etat :: e.Value() != s
  {
    if s == "inconnu" then Some(Inconnu)
    else if s == "partiel" then Some(Partiel)
    else if s == "couvert" then Some(Couvert)
    else if s == "non_couvert" then Some(NonCouvert)
    else None
  }

  /** A raw material, by code and name; the optional description, safety
      sheet, Seveso flag and internal reference are not part of the model. */
  datatype Matiere = Matiere(codeMp: string, nom: string)

  const UnknownCode: string := "UNKNOWN"
  const UnknownName: string := "Matière inconnue"

  /** The serialised form of a material; `None` stands for a missing or `None` entry. */
  datatype MatiereDump = MatiereDump(codeMp: Option<string>, nom: Option<string>)

  /** `Matiere.from_model_dump`: a missing or empty code or name gets its default. */
  function MatiereFromDump(d: MatiereDump): (m: Matiere)
    ensures d.codeMp.Some? && d.codeMp.value != "" ==> m.codeMp == d.codeMp.value
    ensures d.codeMp.None? || d.codeMp.value == "" ==> m.codeMp == UnknownCode
    ensures d.nom.Some? && d.nom.value != "" ==> m.nom == d.nom.value
    ensures d.nom.None? || d.nom.value == "" ==> m.nom == UnknownName
  {
    Matiere(
      if d.codeMp.None? || d.codeMp.value == "" then UnknownCode else d.codeMp.value,
      if d.nom.None? || d.nom.value == "" then UnknownName else d.nom.value)
  }

  function MatiereToDump(m: Matiere): MatiereDump {
    MatiereDump(Some(m.codeMp), Some(m.nom))
  }

  /** A demand event after construction: its id is always set. */
  datatype Besoin = Besoin(
    id: string,
    matiere: Matiere,
    quantite: real,
    echeance: Dates.DateTime,
    etat: Etat,
    lot: string)

  /** The id `Besoin.__init__` derives: `code_YYYYMMDD`, then `_lot` when the stripped lot is not empty. */
  function DerivedId(codeMp: string, echeance: Dates.DateTime, lot: string): (id: string)
    ensures Text.Strip(lot) == [] ==> id == codeMp + "_" + Dates.FormatYmd(echeance)
    ensures Text.Strip(lot) != [] ==> id == codeMp + "_" + Dates.FormatYmd(echeance) + "_" + Text.Strip(lot)
  {
    var stem := codeMp + "_" + Dates.FormatYmd(echeance);
    var lotStr := Text.Strip(lot);
    if lotStr != [] then stem + "_" + lotStr else stem
  }

  /** `Besoin(...)`: validation rejects a negative quantity; an empty or
      missing id is replaced by the derived one. */
  function NewBesoin(id: Option<string>, matiere: Matiere, quantite: real,
                     echeance: Dates.DateTime, etat: Etat, lot: string): (r: Result<Besoin>)
    ensures r.Ok? <==> quantite >= 0.0
    ensures r.Ok? ==> (r.value.matiere == matiere && r.value.quantite == quantite &&
                       r.value.echeance == echeance && r.value.etat == etat && r.value.lot == lot)
    ensures r.Ok? && id.Some? && id.value != "" ==> r.value.id == id.value
    ensures r.Ok? && (id.None? || id.value == "") ==> r.value.id == DerivedId(matiere.codeMp, echeance, lot)
  {
    if quantite < 0.0 then Err("quantite: Input should be greater than or equal to 0")
    else
      var derived := if id.Some? && id.value != "" then id.value else DerivedId(matiere.codeMp, echeance, lot);
      Ok(Besoin(derived, matiere, quantite, echeance, etat, lot))
  }

  /** What a stored dictionary may hold under "etat": the enum itself or a string. */
  datatype EtatEntry = EtatMember(member: Etat) | EtatText(text: string)

  /** The due date a stored dictionary holds: a datetime, or text still to parse. */
  datatype EcheanceEntry = EcheanceDate(date: Dates.DateTime) | EcheanceText(text: string)

  /** The dictionary `Besoin.from_model_dump` reads. For the id, the state and
      the lot, `None` stands for a missing key or a `None` value, which the
      code treats alike; the material, quantity and due date tell the two apart. */
  datatype BesoinDump = BesoinDump(
    id: Option<string>,
    matiere: Raw.Slot<MatiereDump>,
    quantite: Raw.Slot<real>,
    echeance: Raw.Slot<EcheanceEntry>,
    etat: Option<EtatEntry>,
    lot: Option<string>)

  /** The due date of a stored entry: a datetime is kept; text is read by
      `datetime.fromisoformat` (`fromIso`), then by `strptime` with
      "%Y-%m-%d %H:%M:%S" (`fromPattern`), and is `now` when neither reads it. */
  function EcheanceOf(e: EcheanceEntry, fromIso: string -> Option<Dates.DateTime>,
                      fromPattern: string -> Option<Dates.DateTime>, now: Dates.DateTime): (t: Dates.DateTime)
    ensures e.EcheanceDate? ==> t == e.date
    ensures e.EcheanceText? && fromIso(e.text).Some? ==> t == fromIso(e.text).value
    ensures e.EcheanceText? && fromIso(e.text).None? && fromPattern(e.text).Some? ==> t == fromPattern(e.text).value
    ensures e.EcheanceText? && fromIso(e.text).None? && fromPattern(e.text).None? ==> t == now
  {
    match e
    case EcheanceDate(d) => d
    case EcheanceText(text) =>
      if fromIso(text).Some? then fromIso(text).value
      else fromPattern(text).GetOr(now)
  }

  /** The state `from_model_dump` settles on: a missing or empty entry and an
      unknown string both give `Inconnu`. */
  function EtatOfEntry(e: Option<EtatEntry>): (r: Etat)
    ensures e.None? ==> r == Inconnu
    ensures e.Some? && e.value.EtatMember? ==> r == e.value.member
    ensures e.Some? && e.value.EtatText? && EtatFromValue(e.value.text).None? ==> r == Inconnu
    ensures e.Some? && e.value.EtatText? && EtatFromValue(e.value.text).Some? ==> r.Value() == e.value.text
  {
    match e
    case None => Inconnu
    case Some(EtatMember(m)) => m
    case Some(EtatText(s)) => if s == "" then Inconnu else EtatFromValue(s).GetOr(Inconnu)
  }

  /** The material `from_model_dump` settles on: a stored one is loaded, a
      missing one is the unknown material. */
  function MatiereOfSlot(m: Raw.Slot<MatiereDump>): (r: Matiere)
    requires !m.Null?
    ensures m.Present? ==> r == MatiereFromDump(m.value)
    ensures m.Missing? ==> r == Matiere(UnknownCode, UnknownName)
  {
    if m.Present? then MatiereFromDump(m.value) else Matiere(UnknownCode, UnknownName)
  }

  /** The quantity `from_model_dump` settles on: a missing one is 0.0. */
  function QuantiteOfSlot(q: Raw.Slot<real>): (r: real)
    requires !q.Null?
    ensures q.Present? ==> r == q.value
    ensures q.Missing? ==> r == 0.0
  {
    if q.Present? then q.value else 0.0
  }

  /** The due date `from_model_dump` settles on: a missing one is `now`. */
  function EcheanceOfSlot(e: Raw.Slot<EcheanceEntry>, fromIso: string -> Option<Dates.DateTime>,
                          fromPattern: string -> Option<Dates.DateTime>, now: Dates.DateTime): (t: Dates.DateTime)
    requires !e.Null?
    ensures e.Present? ==> t == EcheanceOf(e.value, fromIso, fromPattern, now)
    ensures e.Missing? ==> t == now
  {
    if e.Present? then EcheanceOf(e.value, fromIso, fromPattern, now) else now
  }

  /** `Besoin.from_model_dump`: defaults for etat and lot, and the stored id is
      always dropped so that the id is derived again from the fields. When the
      first construction fails, the code builds the besoin again, giving a
      missing material, quantity or due date its default (the unknown
      material, 0.0, `now`); that retry fails in turn on a negative quantity
      or on a key holding `None`, and the error then escapes. */
  function FromModelDump(d: BesoinDump, fromIso: string -> Option<Dates.DateTime>,
                         fromPattern: string -> Option<Dates.DateTime>, now: Dates.DateTime): (r: Result<Besoin>)
    ensures r.Ok? <==> !d.matiere.Null? && !d.echeance.Null? && !d.quantite.Null?
                       && (d.quantite.Present? ==> d.quantite.value >= 0.0)
    ensures r.Ok? ==> r.value.id == DerivedId(r.value.matiere.codeMp, r.value.echeance, r.value.lot)
    ensures r.Ok? ==> r.value.etat == EtatOfEntry(d.etat)
    ensures r.Ok? ==> r.value.lot == (if d.lot.None? then "" else d.lot.value)
    ensures r.Ok? ==> r.value.matiere == MatiereOfSlot(d.matiere)
    ensures r.Ok? ==> r.value.quantite == QuantiteOfSlot(d.quantite)
    ensures r.Ok? ==> r.value.echeance == EcheanceOfSlot(d.echeance, fromIso, fromPattern, now)
  {
    if d.matiere.Null? || d.echeance.Null? || d.quantite.Null? then
      Err("Input should be a valid value, not None")
    else
      var lot := if d.lot.None? || d.lot.value == "" then "" else d.lot.value;
      NewBesoin(None, MatiereOfSlot(d.matiere), QuantiteOfSlot(d.quantite),
                EcheanceOfSlot(d.echeance, fromIso, fromPattern, now), EtatOfEntry(d.etat), lot)
  }

  /** `Besoin.model_dump`: the state is written as its value string and the
      due date as its ISO text. */
  function ModelDump(b: Besoin): (d: BesoinDump)
    ensures d.etat == Some(EtatText(b.etat.Value()))
    ensures d.id == Some(b.id) && d.lot == Some(b.lot)
    ensures d.quantite == Raw.Present(b.quantite)
    ensures d.echeance == Raw.Present(EcheanceText(Dates.IsoFormat(b.echeance)))
  {
    BesoinDump(Some(b.id), Raw.Present(MatiereToDump(b.matiere)), Raw.Present(b.quantite),
               Raw.Present(EcheanceText(Dates.IsoFormat(b.echeance))),
               Some(EtatText(b.etat.Value())), Some(b.lot))
  }

  /** Every state survives the trip through its value string. */
  lemma EtatValueRoundTrip(e: Etat)
    ensures EtatFromValue(e.Value()) == Some(e)
    ensures EtatOfEntry(Some(EtatText(e.Value()))) == e
  {
  }

  /** Dumping then loading a besoin gives it back with its id derived again from
      its fields, so a besoin whose id was derived comes back unchanged. */
  lemma DumpLoadRoundTrip(b: Besoin, fromIso: string -> Option<Dates.DateTime>,
                           fromPattern: string -> Option<Dates.DateTime>, now: Dates.DateTime)
    requires b.quantite >= 0.0 && b.matiere.codeMp != "" && b.matiere.nom != ""
    requires fromIso(Dates.IsoFormat(b.echeance)) == Some(b.echeance)
    ensures FromModelDump(ModelDump(b), fromIso, fromPattern, now)
         == Ok(b.(id := DerivedId(b.matiere.codeMp, b.echeance, b.lot)))
    ensures b.id == DerivedId(b.matiere.codeMp, b.echeance, b.lot) ==>
              FromModelDump(ModelDump(b), fromIso, fromPattern, now) == Ok(b)
  {
    EtatValueRoundTrip(b.etat);
    var d := ModelDump(b);
    assert MatiereOfSlot(d.matiere) == b.matiere;
    assert QuantiteOfSlot(d.quantite) == b.quantite;
    assert EcheanceOfSlot(d.echeance, fromIso, fromPattern, now) == b.echeance;
    var r := FromModelDump(d, fromIso, fromPattern, now);
    assert r.Ok?;
    assert r.value.matiere == b.matiere && r.value.quantite == b.quantite && r.value.echeance == b.echeance;
    assert r.value.etat == b.etat && r.value.lot == b.lot;
  }

  /** Two besoins of one material due on the same day with the same stripped lot
      get the same derived id. */
  lemma DerivedIdDependsOnDay(code: string, t: Dates.DateTime, u: Dates.DateTime, lot: string, lot': string)
    requires Dates.DayNumber(t) == Dates.DayNumber(u) && Text.Strip(lot) == Text.Strip(lot')
    ensures DerivedId(code, t, lot) == DerivedId(code, u, lot')
  {
  }
}
