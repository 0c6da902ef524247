/** The CSV decoder for besoins (`lib/decoders/besoins/csv.py`): the code
    validator, the dictionary-row decoder, and the file decoder that reads
    one besoin per dated column of each accepted row. Splitting lines into
    cells, parsing numbers and parsing dates are passed in as functions. */
module BesoinsCsv {
  import opened Wrappers
  import Text
  import Seqs
  import Dates
  import Besoins
  import Raw

  type Besoin = Besoins.Besoin

  // ---------------------------------------------------------------------
  // Codes

  /** `is_valid_code_mp`: the empty code and "nan" are refused, then short
      all-digit codes, then every code shorter than three characters. */
  function IsValidCodeMp(code: string): (ok: bool)
    ensures ok <==> code != "nan" && |code| >= 3
  {
    if code == [] || code == "nan" then false
    else if Text.IsDigits(code) && |code| < 3 then false
    else if |code| < 3 then false
    else true
  }

  // ---------------------------------------------------------------------
  // Quantities

  const NarrowNoBreakSpace: char := '\U{202F}'
  const NoBreakSpace: char := '\U{00A0}'

  /** The cleaning `decode_file` applies to a quantity cell: the narrow
      no-break space, the no-break space and the space are removed, and the
      decimal comma becomes a point. */
  function CleanQuantity(s: string): string {
    Text.ReplaceChar(Text.RemoveChar(Text.RemoveChar(Text.RemoveChar(s, NarrowNoBreakSpace), NoBreakSpace), ' '), ',', '.')
  }

  /** The cleaning `decode_row` applies: spaces only, and the decimal comma. */
  function CleanRowQuantity(s: string): string {
    Text.ReplaceChar(Text.RemoveChar(s, ' '), ',', '.')
  }

  /** None of the characters the cleaning removes or replaces. */
  predicate IsClean(s: string) {
    forall i :: 0 <= i < |s| ==> s[i] != NarrowNoBreakSpace && s[i] != NoBreakSpace && s[i] != ' ' && s[i] != ','
  }

  lemma {:induction false} RemoveCharKeeps(s: string, c: char, d: char)
    requires forall i :: 0 <= i < |s| ==> s[i] != d
    ensures forall i :: 0 <= i < |Text.RemoveChar(s, c)| ==> Text.RemoveChar(s, c)[i] != d
  {
    if s != [] {
      RemoveCharKeeps(s[1..], c, d);
    }
  }

  /** A string already clean is left as it is. */
  lemma {:induction false} RemoveCharAbsent(s: string, c: char)
    requires forall i :: 0 <= i < |s| ==> s[i] != c
    ensures Text.RemoveChar(s, c) == s
  {
    if s != [] {
      RemoveCharAbsent(s[1..], c);
    }
  }

  /** The cleaned quantity holds no space of either kind and no comma. */
  lemma CleanQuantityIsClean(s: string)
    ensures IsClean(CleanQuantity(s))
  {
    var a := Text.RemoveChar(s, NarrowNoBreakSpace);
    RemoveCharKeeps(a, NoBreakSpace, NarrowNoBreakSpace);
    var b := Text.RemoveChar(a, NoBreakSpace);
    RemoveCharKeeps(b, ' ', NarrowNoBreakSpace);
    RemoveCharKeeps(b, ' ', NoBreakSpace);
  }

  /** Cleaning changes nothing in a clean string, so cleaning twice is
      cleaning once. */
  lemma CleanQuantityFixpoint(s: string)
    requires IsClean(s)
    ensures CleanQuantity(s) == s
  {
    RemoveCharAbsent(s, NarrowNoBreakSpace);
    RemoveCharAbsent(s, NoBreakSpace);
    RemoveCharAbsent(s, ' ');
  }

  lemma CleanQuantityIdempotent(s: string)
    ensures CleanQuantity(CleanQuantity(s)) == CleanQuantity(s)
  {
    CleanQuantityIsClean(s);
    CleanQuantityFixpoint(CleanQuantity(s));
  }

  /** A French thousands separator and decimal comma become a number
      `float` reads. */
  lemma CleanQuantityFrench()
    ensures CleanQuantity("1" + [NarrowNoBreakSpace] + "234,5") == "1234.5"
  {
    RemoveCharAppend("1" + [NarrowNoBreakSpace], "234,5", NarrowNoBreakSpace);
    assert Text.RemoveChar([NarrowNoBreakSpace], NarrowNoBreakSpace) == [];
    RemoveCharAbsent("234,5", NarrowNoBreakSpace);
    RemoveCharAbsent("1234,5", NoBreakSpace);
    RemoveCharAbsent("1234,5", ' ');
    DecimalComma();
  }

  /** The same for the cleaning of `decode_row`, with an ordinary space. */
  lemma CleanRowQuantityFrench()
    ensures CleanRowQuantity("1 234,5") == "1234.5"
  {
    RemoveCharAppend("1 ", "234,5", ' ');
    assert Text.RemoveChar([' '], ' ') == [];
    RemoveCharAbsent("234,5", ' ');
    DecimalComma();
  }

  lemma DecimalComma()
    ensures Text.ReplaceChar("1234,5", ',', '.') == "1234.5"
  {
  }

  lemma {:induction false} RemoveCharAppend(a: string, b: string, c: char)
    ensures Text.RemoveChar(a + b, c) == Text.RemoveChar(a, c) + Text.RemoveChar(b, c)
  {
    if a == [] {
      assert a + b == b;
    } else {
      assert (a + b)[1..] == a[1..] + b;
      RemoveCharAppend(a[1..], b, c);
    }
  }

  // ---------------------------------------------------------------------
  // One dictionary row

  /** `row.get(key) or default` */
  function FieldOr(row: map<string, string>, key: string, default: string): (v: string)
    ensures v == default || (key in row && v == row[key] && v != "")
  {
    if key in row && row[key] != "" then row[key] else default
  }

  /** `decode_row`: a besoin due `now` (the clock is passed in) for the code
      and designation of the row; an empty code or designation is an error,
      a quantity that does not parse counts as zero, and a negative one, NaN
      or minus infinity fails the model's `ge=0` validation. The model's
      quantities are reals, so a quantity of plus infinity, which the source
      accepts, is refused here too. */
  function DecodeRow(row: map<string, string>, parseNumber: string -> Option<Raw.Number>, now: Dates.DateTime): (r: Result<Besoin>)
    ensures var code := FieldOr(row, "Code MP", "");
            var designation := FieldOr(row, "Libellé MP", "");
            var q := parseNumber(CleanRowQuantity(FieldOr(row, "Qté Besoin total", "0")));
            && (r.Ok? <==> code != "" && designation != "" && (q.None? || (q.value.Finite? && q.value.x >= 0.0)))
            && (r.Ok? ==>
                  && r.value.matiere == Besoins.Matiere(code, designation)
                  && r.value.quantite == (if q.None? then 0.0 else q.value.x)
                  && r.value.echeance == now
                  && r.value.etat == Besoins.Inconnu
                  && r.value.lot == ""
                  && r.value.id == Besoins.DerivedId(code, now, ""))
  {
    var code := FieldOr(row, "Code MP", "");
    var designation := FieldOr(row, "Libellé MP", "");
    var quantiteStr := FieldOr(row, "Qté Besoin total", "0");
    if code == "" || designation == "" then Err("code MP vide")
    else
      match parseNumber(CleanRowQuantity(quantiteStr)).GetOr(Raw.Finite(0.0))
      case Finite(x) => Besoins.NewBesoin(None, Besoins.Matiere(code, designation), x, now, Besoins.Inconnu, "")
      case NaN => Err("quantite: input should be greater than or equal to 0")
      case Inf(negative) =>
        if negative then Err("quantite: input should be greater than or equal to 0")
        else Err("quantite: infinite quantities are not modelled")
  }

  // ---------------------------------------------------------------------
  // A whole file

  /** The line holding the due dates, and the first data line. */
  const DatesLine: nat := 6
  const FirstDataLine: nat := 7
  /** The first column that holds a quantity for a due date. */
  const FirstDateColumn: nat := 9

  /** A due-date cell: empty, blank and "nan" cells have no date; the others
      are parsed with the stripped text. */
  function ParseDateCell(cell: string, parseDate: string -> Option<Dates.DateTime>): (d: Option<Dates.DateTime>)
    ensures Text.Strip(cell) == "" || Text.Strip(cell) == "nan" ==> d.None?
  {
    var clean := Text.Strip(cell);
    if cell != "" && clean != "" && clean != "nan" then parseDate(clean) else None
  }

  /** The parsed due dates, one per cell of the dates line. */
  function ParsedDates(cells: seq<string>, parseDate: string -> Option<Dates.DateTime>): (ds: seq<Option<Dates.DateTime>>)
    ensures |ds| == |cells| && forall i :: 0 <= i < |cells| ==> ds[i] == ParseDateCell(cells[i], parseDate)
  {
    seq(|cells|, i requires 0 <= i < |cells| => ParseDateCell(cells[i], parseDate))
  }

  /** A data row the decoder reads: it has a code column, and its code and
      designation are present and the code is valid. */
  predicate Accepted(row: seq<string>) {
    && |row| >= 2
    && row[1] != ""
    && |row| > 2 && row[2] != ""
    && IsValidCodeMp(row[1])
  }

  /** The besoin that column `c` of an accepted row gives, if any: the
      column must have a due date, a quantity that is neither empty nor "0"
      and parses to a positive number, and a due date whose "%Y-%m-%d" form
      differs from `todayIso`, the current day of the decoding. NaN and minus
      infinity fail `quantite > 0`; plus infinity passes it in the source,
      but the model's quantities are reals, so that cell gives nothing here. */
  function ColumnBesoin(row: seq<string>, c: nat, dates: seq<Option<Dates.DateTime>>,
                        parseNumber: string -> Option<Raw.Number>, todayIso: string): Option<Besoin>
    requires Accepted(row) && c < |row|
  {
    if c < |dates| && dates[c].Some? && row[c] != "" && row[c] != "0" then
      var q := PositiveQuantity(parseNumber(CleanQuantity(row[c])));
      if q.Some? && Dates.FormatIsoDate(dates[c].value) != todayIso then
        var b := Besoins.NewBesoin(None, Besoins.Matiere(row[1], row[2]), q.value, dates[c].value, Besoins.Inconnu, "");
        if b.Ok? then Some(b.value) else None
      else None
    else None
  }

  /** The `quantite > 0` test on a parsed cell: a text that does not parse is
      skipped, and NaN and minus infinity fail the comparison. */
  function PositiveQuantity(n: Option<Raw.Number>): (q: Option<real>)
    ensures q.Some? <==> n.Some? && n.value.Finite? && n.value.x > 0.0
    ensures q.Some? ==> q.value == n.value.x
  {
    match n
    case Some(Finite(x)) => if x > 0.0 then Some(x) else None
    case _ => None
  }

  /** What every column of an accepted row gives; the columns before the
      first date column give nothing. */
  function Columns(row: seq<string>, dates: seq<Option<Dates.DateTime>>,
                   parseNumber: string -> Option<Raw.Number>, todayIso: string): (cs: seq<Option<Besoin>>)
    requires Accepted(row)
    ensures |cs| == |row|
  {
    seq(|row|, c requires 0 <= c < |row| =>
      if c < FirstDateColumn then None else ColumnBesoin(row, c, dates, parseNumber, todayIso))
  }

  /** The besoins one data row gives, column after column. */
  function RowBesoins(row: seq<string>, dates: seq<Option<Dates.DateTime>>,
                      parseNumber: string -> Option<Raw.Number>, todayIso: string): seq<Besoin>
  {
    if Accepted(row) then Seqs.Somes(Columns(row, dates, parseNumber, todayIso)) else []
  }

  /** The besoins of all data rows, row after row. */
  function Decoded(rows: seq<seq<string>>, dates: seq<Option<Dates.DateTime>>,
                   parseNumber: string -> Option<Raw.Number>, todayIso: string): seq<Besoin>
  {
    Seqs.Concat(seq(|rows|, i requires 0 <= i < |rows| => RowBesoins(rows[i], dates, parseNumber, todayIso)))
  }

  /** `decode_file` on a file whose lines are already split into cells:
      a suffix other than ".csv" and a file without a dates line are errors;
      otherwise every data row gives its besoins. */
  method DecodeFile(suffix: string, lines: seq<seq<string>>, parseDate: string -> Option<Dates.DateTime>,
                    parseNumber: string -> Option<Raw.Number>, todayIso: string)
    returns (r: Result<seq<Besoin>>)
    ensures r.Ok? <==> Text.Lower(suffix) == ".csv" && |lines| > DatesLine
    ensures r.Ok? ==> r.value == Decoded(lines[FirstDataLine..], ParsedDates(lines[DatesLine], parseDate), parseNumber, todayIso)
  {
    if Text.Lower(suffix) != ".csv" {
      return Err("Format de fichier non supporté");
    }
    if |lines| <= DatesLine {
      return Err("list index out of range");
    }
    var parsedDates := ParseDatesLine(lines[DatesLine], parseDate);
    var besoins := DecodeRows(lines[FirstDataLine..], parsedDates, parseNumber, todayIso);
    return Ok(besoins);
  }

  /** The date-line loop of `decode_file`: every cell parsed as a date. */
  method ParseDatesLine(cells: seq<string>, parseDate: string -> Option<Dates.DateTime>)
    returns (parsedDates: seq<Option<Dates.DateTime>>)
    ensures parsedDates == ParsedDates(cells, parseDate)
  {
    parsedDates := [];
    for i := 0 to |cells|
      invariant |parsedDates| == i
      invariant forall j :: 0 <= j < i ==> parsedDates[j] == ParseDateCell(cells[j], parseDate)
    {
      var clean := Text.Strip(cells[i]);
      var parsed: Option<Dates.DateTime> := None;
      if cells[i] != "" && clean != "" && clean != "nan" {
        parsed := parseDate(clean);
      }
      parsedDates := parsedDates + [parsed];
    }
  }

  /** The data-row loop of `decode_file`: the besoins of every row, in order. */
  method DecodeRows(rows: seq<seq<string>>, parsedDates: seq<Option<Dates.DateTime>>,
                    parseNumber: string -> Option<Raw.Number>, todayIso: string)
    returns (besoins: seq<Besoin>)
    ensures besoins == Decoded(rows, parsedDates, parseNumber, todayIso)
  {
    besoins := [];
    ghost var perRow := seq(|rows|, i requires 0 <= i < |rows| => RowBesoins(rows[i], parsedDates, parseNumber, todayIso));
    for i := 0 to |rows|
      invariant besoins == Seqs.Concat(perRow[..i])
    {
      var rowBesoins := DecodeDataRow(rows[i], parsedDates, parseNumber, todayIso);
      Seqs.ConcatPrefix(perRow, i);
      besoins := besoins + rowBesoins;
    }
    assert perRow[..|rows|] == perRow;
  }

  /** The body of the column loop of `decode_file`: the besoin one cell
      gives, if any. */
  method DecodeCell(row: seq<string>, c: nat, dates: seq<Option<Dates.DateTime>>,
                    parseNumber: string -> Option<Raw.Number>, todayIso: string)
    returns (found: Option<Besoin>)
    requires Accepted(row) && c < |row|
    ensures found == ColumnBesoin(row, c, dates, parseNumber, todayIso)
  {
    found := None;
    if c < |dates| && dates[c].Some? {
      var quantiteStr := row[c];
      if quantiteStr != "" && quantiteStr != "0" {
        var quantite := PositiveQuantity(parseNumber(CleanQuantity(quantiteStr)));
        if quantite.Some? {
          if Dates.FormatIsoDate(dates[c].value) != todayIso {
            var b := Besoins.NewBesoin(None, Besoins.Matiere(row[1], row[2]), quantite.value, dates[c].value, Besoins.Inconnu, "");
            if b.Ok? {
              found := Some(b.value);
            }
          }
        }
      }
    }
  }

  /** The body of the row loop of `decode_file`. */
  method DecodeDataRow(row: seq<string>, dates: seq<Option<Dates.DateTime>>,
                       parseNumber: string -> Option<Raw.Number>, todayIso: string)
    returns (besoins: seq<Besoin>)
    ensures besoins == RowBesoins(row, dates, parseNumber, todayIso)
  {
    besoins := [];
    if |row| < 2 {
      return;
    }
    var code := row[1];
    var designation := if |row| > 2 then row[2] else "";
    if code == "" || designation == "" || !IsValidCodeMp(code) {
      return;
    }
    ghost var cols := Columns(row, dates, parseNumber, todayIso);
    if |row| <= FirstDateColumn {
      Seqs.SomesNone(cols);
      return;
    }
    Seqs.SomesNone(cols[..FirstDateColumn]);
    besoins := DecodeDateColumns(row, dates, parseNumber, todayIso, cols);
  }

  /** One cell of the column loop, read against what the columns give. */
  method DecodeCellOf(row: seq<string>, c: nat, dates: seq<Option<Dates.DateTime>>,
                      parseNumber: string -> Option<Raw.Number>, todayIso: string,
                      ghost cols: seq<Option<Besoin>>)
    returns (found: Option<Besoin>)
    requires Accepted(row) && FirstDateColumn <= c < |row|
    requires cols == Columns(row, dates, parseNumber, todayIso)
    ensures found == cols[c]
  {
    found := DecodeCell(row, c, dates, parseNumber, todayIso);
    ColumnsAt(row, dates, parseNumber, todayIso, c);
  }

  /** The column loop of `decode_file` over the date columns of an accepted
      row, given what every column gives. */
  method DecodeDateColumns(row: seq<string>, dates: seq<Option<Dates.DateTime>>,
                           parseNumber: string -> Option<Raw.Number>, todayIso: string,
                           ghost cols: seq<Option<Besoin>>)
    returns (besoins: seq<Besoin>)
    requires Accepted(row) && FirstDateColumn < |row| && |cols| == |row|
    requires cols == Columns(row, dates, parseNumber, todayIso)
    requires Seqs.Somes(cols[..FirstDateColumn]) == []
    ensures besoins == Seqs.Somes(cols)
  {
    besoins := [];
    for c := FirstDateColumn to |row|
      invariant besoins == Seqs.Somes(cols[..c])
    {
      var found := DecodeCellOf(row, c, dates, parseNumber, todayIso, cols);
      Seqs.SomesPrefix(cols, c);
      if found.Some? {
        besoins := besoins + [found.value];
      }
    }
    assert cols[..|row|] == cols;
  }

  /** A date column's entry in `Columns` is the besoin that column gives. */
  lemma ColumnsAt(row: seq<string>, dates: seq<Option<Dates.DateTime>>,
                  parseNumber: string -> Option<Raw.Number>, todayIso: string, c: nat)
    requires Accepted(row) && FirstDateColumn <= c < |row|
    ensures Columns(row, dates, parseNumber, todayIso)[c] == ColumnBesoin(row, c, dates, parseNumber, todayIso)
  {
  }

  // ---------------------------------------------------------------------
  // Properties of the decoded besoins

  /** Every besoin a column gives is unknown, without lot, of positive
      quantity, due on that column's date (not on the day `todayIso`), and
      named after the
      row's valid code and designation. */
  predicate FromColumn(b: Besoin, row: seq<string>, c: nat, dates: seq<Option<Dates.DateTime>>, todayIso: string) {
    && FirstDateColumn <= c < |row| && c < |dates|
    && |row| > 2 && IsValidCodeMp(row[1]) && row[2] != ""
    && b.matiere == Besoins.Matiere(row[1], row[2])
    && dates[c] == Some(b.echeance)
    && Dates.FormatIsoDate(b.echeance) != todayIso
    && b.quantite > 0.0
    && b.etat == Besoins.Inconnu && b.lot == ""
    && b.id == Besoins.DerivedId(row[1], b.echeance, "")
  }

  lemma ColumnBesoinSound(row: seq<string>, c: nat, dates: seq<Option<Dates.DateTime>>,
                          parseNumber: string -> Option<Raw.Number>, todayIso: string)
    requires Accepted(row) && c < |row|
    requires ColumnBesoin(row, c, dates, parseNumber, todayIso).Some?
    ensures c >= FirstDateColumn ==> FromColumn(ColumnBesoin(row, c, dates, parseNumber, todayIso).value, row, c, dates, todayIso)
  {
  }

  /** A row's besoins are those of its date columns, and nothing when the
      row is not accepted. */
  lemma RowBesoinsMembers(row: seq<string>, dates: seq<Option<Dates.DateTime>>,
                          parseNumber: string -> Option<Raw.Number>, todayIso: string, b: Besoin)
    ensures b in RowBesoins(row, dates, parseNumber, todayIso) <==>
              Accepted(row) && exists c :: FirstDateColumn <= c < |row| && ColumnBesoin(row, c, dates, parseNumber, todayIso) == Some(b)
  {
    if b in RowBesoins(row, dates, parseNumber, todayIso) {
      RowBesoinFromColumn(row, dates, parseNumber, todayIso, b);
    }
    if Accepted(row) && exists c :: FirstDateColumn <= c < |row| && ColumnBesoin(row, c, dates, parseNumber, todayIso) == Some(b) {
      var c :| FirstDateColumn <= c < |row| && ColumnBesoin(row, c, dates, parseNumber, todayIso) == Some(b);
      ColumnBesoinInRow(row, dates, parseNumber, todayIso, b, c);
    }
  }

  /** A besoin of a row comes from one of its date columns. */
  lemma RowBesoinFromColumn(row: seq<string>, dates: seq<Option<Dates.DateTime>>,
                            parseNumber: string -> Option<Raw.Number>, todayIso: string, b: Besoin)
    requires b in RowBesoins(row, dates, parseNumber, todayIso)
    ensures Accepted(row)
    ensures exists c :: FirstDateColumn <= c < |row| && ColumnBesoin(row, c, dates, parseNumber, todayIso) == Some(b)
  {
    var cols := Columns(row, dates, parseNumber, todayIso);
    Seqs.SomesMembers(cols, b);
    var c :| 0 <= c < |cols| && cols[c] == Some(b);
    assert FirstDateColumn <= c && ColumnBesoin(row, c, dates, parseNumber, todayIso) == Some(b);
  }

  /** The besoin a date column of an accepted row gives is one of the row's. */
  lemma ColumnBesoinInRow(row: seq<string>, dates: seq<Option<Dates.DateTime>>,
                          parseNumber: string -> Option<Raw.Number>, todayIso: string, b: Besoin, c: nat)
    requires Accepted(row) && FirstDateColumn <= c < |row|
    requires ColumnBesoin(row, c, dates, parseNumber, todayIso) == Some(b)
    ensures b in RowBesoins(row, dates, parseNumber, todayIso)
  {
    var cols := Columns(row, dates, parseNumber, todayIso);
    Seqs.SomesMembers(cols, b);
    assert cols[c] == Some(b);
  }


  /** The decoded besoins are exactly those of the data rows. */
  lemma DecodedMembers(rows: seq<seq<string>>, dates: seq<Option<Dates.DateTime>>,
                       parseNumber: string -> Option<Raw.Number>, todayIso: string, b: Besoin)
    ensures b in Decoded(rows, dates, parseNumber, todayIso) <==>
              exists i :: 0 <= i < |rows| && b in RowBesoins(rows[i], dates, parseNumber, todayIso)
  {
    var perRow := seq(|rows|, i requires 0 <= i < |rows| => RowBesoins(rows[i], dates, parseNumber, todayIso));
    Seqs.ConcatMembers(perRow, b);
    if exists i :: 0 <= i < |rows| && b in RowBesoins(rows[i], dates, parseNumber, todayIso) {
      var i :| 0 <= i < |rows| && b in RowBesoins(rows[i], dates, parseNumber, todayIso);
      assert b in perRow[i];
    }
  }

  /** Every decoded besoin comes from a date column of an accepted row, with
      that column's date, a positive quantity and the unknown state. */
  lemma DecodedSound(rows: seq<seq<string>>, dates: seq<Option<Dates.DateTime>>,
                     parseNumber: string -> Option<Raw.Number>, todayIso: string, b: Besoin)
    requires b in Decoded(rows, dates, parseNumber, todayIso)
    ensures exists i, c :: 0 <= i < |rows| && FromColumn(b, rows[i], c, dates, todayIso)
  {
    DecodedMembers(rows, dates, parseNumber, todayIso, b);
    var i :| 0 <= i < |rows| && b in RowBesoins(rows[i], dates, parseNumber, todayIso);
    RowBesoinsMembers(rows[i], dates, parseNumber, todayIso, b);
    var c :| FirstDateColumn <= c < |rows[i]| && ColumnBesoin(rows[i], c, dates, parseNumber, todayIso) == Some(b);
    ColumnBesoinSound(rows[i], c, dates, parseNumber, todayIso);
  }

  /** Every besoin a date column of an accepted data row gives is decoded. */
  lemma DecodedComplete(rows: seq<seq<string>>, dates: seq<Option<Dates.DateTime>>,
                        parseNumber: string -> Option<Raw.Number>, todayIso: string, i: nat, c: nat)
    requires i < |rows| && Accepted(rows[i]) && FirstDateColumn <= c < |rows[i]|
    requires ColumnBesoin(rows[i], c, dates, parseNumber, todayIso).Some?
    ensures ColumnBesoin(rows[i], c, dates, parseNumber, todayIso).value in Decoded(rows, dates, parseNumber, todayIso)
  {
    var b := ColumnBesoin(rows[i], c, dates, parseNumber, todayIso).value;
    RowBesoinsMembers(rows[i], dates, parseNumber, todayIso, b);
    DecodedMembers(rows, dates, parseNumber, todayIso, b);
  }

  /** Rows with fewer than two cells, or without code or designation, or
      with an invalid code, give nothing. */
  lemma RejectedRowsGiveNothing(row: seq<string>, dates: seq<Option<Dates.DateTime>>,
                                parseNumber: string -> Option<Raw.Number>, todayIso: string)
    requires |row| < 2 || row[1] == "" || |row| <= 2 || row[2] == "" || !IsValidCodeMp(row[1])
    ensures RowBesoins(row, dates, parseNumber, todayIso) == []
  {
  }
}
