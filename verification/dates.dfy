/** Naive `datetime` values as whole seconds from 1970-01-01T00:00:00, with the
    day arithmetic and the `strftime("%Y%m%d")` formatting the system uses. */
module Dates {
  import Text

  type DateTime = int

  const SecondsPerDay: int := 86400

  /** `t + timedelta(days=days)` */
  function AddDays(t: DateTime, days: int): DateTime {
    t + days * SecondsPerDay
  }

  /** Days since 1970-01-01 of the calendar day holding `t`. */
  function DayNumber(t: DateTime): int {
    t / SecondsPerDay
  }

  datatype CivilDate = CivilDate(year: int, month: int, day: int)

  /** Proleptic Gregorian calendar date of a day number (days-from-civil inverse). */
  function CivilFromDays(days: int): CivilDate {
    var z := days + 719468;
    var era := z / 146097;
    var doe := z - era * 146097;
    var yoe := (doe - doe / 1460 + doe / 36524 - doe / 146096) / 365;
    var doy := doe - (365 * yoe + yoe / 4 - yoe / 100);
    var mp := (5 * doy + 2) / 153;
    var d := doy - (153 * mp + 2) / 5 + 1;
    var m := if mp < 10 then mp + 3 else mp - 9;
    var y := yoe + era * 400;
    CivilDate(if m <= 2 then y + 1 else y, m, d)
  }

  function Pad(n: int, width: nat): string {
    Text.PadZeros(Text.IntToString(n), width)
  }

  /** `t.strftime("%Y%m%d")` */
  function FormatYmd(t: DateTime): string {
    var c := CivilFromDays(DayNumber(t));
    Pad(c.year, 4) + Pad(c.month, 2) + Pad(c.day, 2)
  }

  /** `t.strftime("%Y-%m-%d")` */
  function FormatIsoDate(t: DateTime): string {
    var c := CivilFromDays(DayNumber(t));
    Pad(c.year, 4) + "-" + Pad(c.month, 2) + "-" + Pad(c.day, 2)
  }

  /** `t.isoformat()` for a naive datetime with whole seconds. */
  function IsoFormat(t: DateTime): string {
    var secs := t % SecondsPerDay;
    FormatIsoDate(t) + "T" + Pad(secs / 3600, 2) + ":" + Pad(secs % 3600 / 60, 2) + ":" + Pad(secs % 60, 2)
  }
}
