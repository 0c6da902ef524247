/** The Python `str` operations the system relies on: `strip`, `lower`,
    `upper`, `in` (substring), `startswith`, `endswith`, `isdigit`, `replace`
    and `str()` of an integer. */
module Text {

  /** The characters Python's `str.isspace()` accepts, which `str.strip()` removes. */
  predicate IsSpace(c: char) {
    || c == ' ' || '\t' <= c <= '\r' || '\U{001C}' <= c <= '\U{001F}'
    || c == '\U{0085}' || c == '\U{00A0}' || c == '\U{1680}'
    || '\U{2000}' <= c <= '\U{200A}' || c == '\U{2028}' || c == '\U{2029}'
    || c == '\U{202F}' || c == '\U{205F}' || c == '\U{3000}'
  }

  function TrimStart(s: string): (r: string)
    ensures |r| <= |s| && r == s[|s| - |r|..]
    ensures r == [] || !IsSpace(r[0])
  {
    if s != [] && IsSpace(s[0]) then TrimStart(s[1..]) else s
  }

  function TrimEnd(s: string): (r: string)
    ensures |r| <= |s| && r == s[..|r|]
    ensures r == [] || !IsSpace(r[|r| - 1])
  {
    if s != [] && IsSpace(s[|s| - 1]) then TrimEnd(s[..|s| - 1]) else s
  }

  /** `s.strip()` */
  function Strip(s: string): (r: string)
    ensures |r| <= |s|
    ensures r == [] || (!IsSpace(r[0]) && !IsSpace(r[|r| - 1]))
  {
    TrimEnd(TrimStart(s))
  }

  /** Lower-casing of one character: ASCII and the Latin-1 capitals. */
  function LowerChar(c: char): char {
    if 'A' <= c <= 'Z' || ('\U{00C0}' <= c <= '\U{00DE}' && c != '\U{00D7}')
    then (c as int + 32) as char
    else c
  }

  /** Upper-casing of one character: ASCII and the Latin-1 small letters. */
  function UpperChar(c: char): char {
    if 'a' <= c <= 'z' || ('\U{00E0}' <= c <= '\U{00FE}' && c != '\U{00F7}')
    then (c as int - 32) as char
    else c
  }

  /** `s.lower()` */
  function Lower(s: string): (r: string)
    ensures |r| == |s|
    ensures forall i :: 0 <= i < |s| ==> r[i] == LowerChar(s[i])
  {
    seq(|s|, i requires 0 <= i < |s| => LowerChar(s[i]))
  }

  /** `s.upper()` */
  function Upper(s: string): (r: string)
    ensures |r| == |s|
    ensures forall i :: 0 <= i < |s| ==> r[i] == UpperChar(s[i])
  {
    seq(|s|, i requires 0 <= i < |s| => UpperChar(s[i]))
  }

  predicate StartsWith(s: string, prefix: string) {
    |prefix| <= |s| && s[..|prefix|] == prefix
  }

  predicate EndsWith(s: string, suffix: string) {
    |suffix| <= |s| && s[|s| - |suffix|..] == suffix
  }

  /** `needle in hay`; the empty string is in every string. */
  predicate Contains(needle: string, hay: string)
    decreases |hay|
  {
    StartsWith(hay, needle) || (hay != [] && Contains(needle, hay[1..]))
  }

  /** `needle.lower() in hay.lower()` */
  predicate ContainsIgnoreCase(needle: string, hay: string) {
    Contains(Lower(needle), Lower(hay))
  }

  predicate IsAsciiDigit(c: char) {
    '0' <= c <= '9'
  }

  /** `s.isdigit()`, for ASCII digits: false for the empty string. */
  predicate IsDigits(s: string) {
    |s| > 0 && forall i :: 0 <= i < |s| ==> IsAsciiDigit(s[i])
  }

  /** The placeholders the validators treat as a missing value, after `strip().lower()`. */
  predicate IsPlaceholder(s: string) {
    Lower(Strip(s)) in {"nan", "none", "null", ""}
  }

  /** `s.replace(pattern, replacement)`: leftmost, non-overlapping occurrences. */
  function ReplaceAll(s: string, pattern: string, replacement: string): string
    requires pattern != []
    decreases |s|
  {
    if StartsWith(s, pattern) then replacement + ReplaceAll(s[|pattern|..], pattern, replacement)
    else if s == [] then []
    else [s[0]] + ReplaceAll(s[1..], pattern, replacement)
  }

  /** `s.replace(c, "")` for one character. */
  function RemoveChar(s: string, c: char): (r: string)
    ensures forall i :: 0 <= i < |r| ==> r[i] != c
    ensures |r| <= |s|
  {
    if s == [] then []
    else if s[0] == c then RemoveChar(s[1..], c)
    else [s[0]] + RemoveChar(s[1..], c)
  }

  /** `s.replace(a, b)` for single characters. */
  function ReplaceChar(s: string, a: char, b: char): (r: string)
    ensures |r| == |s|
    ensures forall i :: 0 <= i < |s| ==> r[i] == if s[i] == a then b else s[i]
  {
    seq(|s|, i requires 0 <= i < |s| => if s[i] == a then b else s[i])
  }

  function DigitChar(d: nat): char
    requires d < 10
  {
    ('0' as int + d) as char
  }

  /** `str(n)` for a natural number. */
  function NatToString(n: nat): (r: string)
    ensures |r| > 0
    decreases n
  {
    if n < 10 then [DigitChar(n)] else NatToString(n / 10) + [DigitChar(n % 10)]
  }

  /** The value of an ASCII digit. */
  function DigitValue(c: char): nat {
    if '0' <= c <= '9' then c as int - '0' as int else 0
  }

  /** `int(s)` for a string of ASCII digits. */
  function DecimalValue(s: string): nat {
    if s == [] then 0 else DecimalValue(s[..|s| - 1]) * 10 + DigitValue(s[|s| - 1])
  }

  /** Reading back a printed number gives the number. */
  lemma {:induction false} NatToStringValue(n: nat)
    ensures DecimalValue(NatToString(n)) == n
    decreases n
  {
    if n >= 10 {
      NatToStringValue(n / 10);
      var s := NatToString(n / 10) + [DigitChar(n % 10)];
      assert s[..|s| - 1] == NatToString(n / 10);
    }
  }

  /** A leading zero does not change the value. */
  lemma {:induction false} LeadingZeroValue(s: string)
    ensures DecimalValue("0" + s) == DecimalValue(s)
    decreases |s|
  {
    if s != [] {
      LeadingZeroValue(s[..|s| - 1]);
      assert ("0" + s)[..|s|] == "0" + s[..|s| - 1];
    }
  }

  /** Zero padding does not change the value. */
  lemma {:induction false} PadZerosValue(s: string, width: nat)
    ensures DecimalValue(PadZeros(s, width)) == DecimalValue(s)
    decreases width - |s|
  {
    if |s| < width {
      PadZerosValue("0" + s, width);
      LeadingZeroValue(s);
    }
  }

  /** `str(i)` */
  function IntToString(i: int): string {
    if i < 0 then "-" + NatToString(-i) else NatToString(i)
  }

  /** Left-pads `s` with zeros up to `width` characters, as the `0N` format spec does. */
  function PadZeros(s: string, width: nat): (r: string)
    ensures |r| == if |s| < width then width else |s|
    decreases width - |s|
  {
    if |s| < width then PadZeros("0" + s, width) else s
  }

  /** `str(int(s))` for an all-digit `s`: the leading zeros go, a lone "0" stays. */
  function StripLeadingZeros(s: string): (r: string)
    ensures |r| <= |s|
    ensures s != [] ==> r != []
  {
    if |s| > 1 && s[0] == '0' then StripLeadingZeros(s[1..]) else s
  }

  lemma EndsWithAppend(s: string, suffix: string)
    ensures EndsWith(s + suffix, suffix)
  {
    assert (s + suffix)[|s|..] == suffix;
  }

  /** A string with no space at either end is its own strip. */
  lemma StripUnchanged(s: string)
    requires s == [] || (!IsSpace(s[0]) && !IsSpace(s[|s| - 1]))
    ensures Strip(s) == s
  {
    assert TrimStart(s) == s;
  }

  /** Stripping twice is stripping once. */
  lemma StripIdempotent(s: string)
    ensures Strip(Strip(s)) == Strip(s)
  {
    StripUnchanged(Strip(s));
  }
}
