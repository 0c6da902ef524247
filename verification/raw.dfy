/** The loosely typed values the field validators receive (`mode='before'`):
    whatever a spreadsheet cell or a stored dictionary held. */
module Raw {
  import opened Wrappers
  import Text

  /** A Python float: finite, NaN, or an infinity. */
  datatype Number = Finite(x: real) | NaN | Inf(negative: bool)

  /** A raw cell value. A float carries the text `str()` gives for it, which
      the model takes as given rather than reproducing Python's float printing. */
  datatype Raw = RNone | RBool(b: bool) | RInt(i: int) | RFloat(f: Number, text: string) | RStr(s: string)

  /** A key of a stored dictionary: missing, present with `None`, or present
      with a value. */
  datatype Slot<T> = Missing | Null | Present(value: T)

  /** `bool(v)` */
  predicate Truthy(v: Raw) {
    match v
    case RNone => false
    case RBool(b) => b
    case RInt(i) => i != 0
    case RFloat(f, _) => f != Finite(0.0)
    case RStr(s) => s != []
  }

  /** `str(v)` for a value that is not `None`. */
  function Str(v: Raw): string
    requires !v.RNone?
  {
    match v
    case RBool(b) => if b then "True" else "False"
    case RInt(i) => Text.IntToString(i)
    case RFloat(_, text) => text
    case RStr(s) => s
  }

  /** `isinstance(v, float) and str(v).lower() == 'nan'` */
  predicate IsNaN(v: Raw) {
    v.RFloat? && v.f.NaN?
  }

  /** `int(x)` for a finite float: truncation toward zero. */
  function Trunc(x: real): (n: int)
    ensures x >= 0.0 ==> n as real <= x < n as real + 1.0
    ensures x < 0.0 ==> n as real - 1.0 < x <= n as real
  {
    if x >= 0.0 then x.Floor else -((-x).Floor)
  }

  /** The comma handling shared by the numeric validators: a trailing comma
      becomes ".0", any other comma becomes a point. */
  function CommaToDot(s: string): (r: string)
    ensures ',' !in s ==> r == s
    ensures Text.EndsWith(s, ",") ==> r == s[..|s| - 1] + ".0"
    ensures ',' in s && !Text.EndsWith(s, ",") ==> r == Text.ReplaceChar(s, ',', '.')
  {
    if Text.EndsWith(s, ",") then assert s[|s| - 1] == ','; s[..|s| - 1] + ".0"
    else if ',' in s then Text.ReplaceChar(s, ',', '.')
    else s
  }

  /** The float-valued numeric validator: `None` gives 0.0, a number gives
      `float(v)`, a string is cleaned and parsed by `parse` (`float()`, which
      gives `None` where Python raises `ValueError`), falling back to 0.0. */
  function FloatField(v: Raw, parse: string -> Option<Number>): (r: Number)
    ensures v.RNone? ==> r == Finite(0.0)
    ensures v.RInt? ==> r == Finite(v.i as real)
    ensures v.RFloat? ==> r == v.f
    ensures v.RStr? && parse(CommaToDot(Text.Strip(v.s))).None? ==> r == Finite(0.0)
  {
    match v
    case RNone => Finite(0.0)
    case RBool(b) => Finite(if b then 1.0 else 0.0)
    case RInt(i) => Finite(i as real)
    case RFloat(f, _) => f
    case RStr(s) => parse(CommaToDot(Text.Strip(s))).GetOr(Finite(0.0))
  }

  /** The string validator of the shipment models: `None` and the placeholders
      (nan, none, null, empty, in any case, around spaces) give "", anything
      else its stripped text. */
  function CleanText(v: Raw): (r: string)
    ensures v.RNone? || IsNaN(v) ==> r == ""
    ensures v.RStr? && Text.IsPlaceholder(v.s) ==> r == ""
    ensures v.RStr? && !Text.IsPlaceholder(v.s) ==> r == Text.Strip(v.s)
  {
    match v
    case RNone => ""
    case RStr(s) => if Text.IsPlaceholder(s) then "" else Text.Strip(s)
    case _ =>
      if IsNaN(v) then ""
      else
        var t := Text.Strip(Str(v));
        if Text.IsPlaceholder(t) then "" else t
  }

  /** The string validator of the stock and receipt models: as `CleanText`,
      but a missing value is `None`. */
  function CleanOptionalText(v: Raw): (r: Option<string>)
    ensures v.RNone? || IsNaN(v) ==> r == None
    ensures v.RStr? && Text.IsPlaceholder(v.s) ==> r == None
    ensures v.RStr? && !Text.IsPlaceholder(v.s) ==> r == Some(Text.Strip(v.s))
  {
    match v
    case RNone => None
    case RStr(s) => if Text.IsPlaceholder(s) then None else Some(Text.Strip(s))
    case _ =>
      if IsNaN(v) then None
      else
        var t := Text.Strip(Str(v));
        if Text.IsPlaceholder(t) then None else Some(t)
  }

  /** The two string validators agree except in how they spell a missing value. */
  lemma CleanTextIsOptionalOrEmpty(v: Raw)
    ensures CleanText(v) == CleanOptionalText(v).GetOr("")
  {
  }

  /** A cleaned string is never a placeholder, and cleaning it again changes nothing. */
  lemma {:induction false} CleanOptionalTextIdempotent(v: Raw)
    ensures CleanOptionalText(v).Some? ==> !Text.IsPlaceholder(CleanOptionalText(v).value)
    ensures CleanOptionalText(v).Some? ==> CleanOptionalText(RStr(CleanOptionalText(v).value)) == CleanOptionalText(v)
  {
    if CleanOptionalText(v).Some? {
      var t := if v.RStr? then v.s else Str(v);
      Text.StripIdempotent(t);
    }
  }
}
