/** Wall-clock readings, as the backend takes them from `datetime.now` in the
    America/Sao_Paulo zone and the browser from `new Date()`. The reading is
    passed in; the zone itself is not modelled. */
module Clock {

  import opened Wrappers
  import Decimal

  datatype DateTime = DateTime(year: int, month: int, day: int, hour: int, minute: int)

  predicate IsLeap(y: int) {
    y % 4 == 0 && (y % 100 != 0 || y % 400 == 0)
  }

  function DaysInMonth(y: int, m: int): (n: int)
    requires 1 <= m <= 12
    ensures 28 <= n <= 31
  {
    if m == 2 then (if IsLeap(y) then 29 else 28)
    else if m == 4 || m == 6 || m == 9 || m == 11 then 30
    else 31
  }

  /** A reading a clock can show, with a four-digit year. */
  predicate Valid(t: DateTime) {
    && 1000 <= t.year <= 9999
    && 1 <= t.month <= 12
    && 1 <= t.day <= DaysInMonth(t.year, t.month)
    && 0 <= t.hour < 24
    && 0 <= t.minute < 60
  }

  /** Days from 1970-01-01 to the given proleptic Gregorian date. */
  function DaysFromCivil(y: int, m: int, d: int): int
    requires 1 <= m <= 12
  {
    var y' := if m <= 2 then y - 1 else y;
    var era := y' / 400;
    var yoe := y' - era * 400;
    var mp := if m > 2 then m - 3 else m + 9;
    var doy := (153 * mp + 2) / 5 + d - 1;
    var doe := yoe * 365 + yoe / 4 - yoe / 100 + doy;
    era * 146097 + doe - 719468
  }

  /** Minutes since 1970-01-01 00:00 of the same local calendar. */
  function EpochMinutes(t: DateTime): int
    requires 1 <= t.month <= 12
  {
    (DaysFromCivil(t.year, t.month, t.day) * 24 + t.hour) * 60 + t.minute
  }

  /** `s` is "dd/mm/yyyy<sep>HH:MM" for a separator of `sepLen` characters, and its
      fields read back as the fields of `t`. */
  predicate Campos(s: string, sepLen: nat, t: DateTime) {
    && |s| == 15 + sepLen
    && Decimal.ParseFixed(s[..2], 2) == Some(t.day) && s[2] == '/'
    && Decimal.ParseFixed(s[3..5], 2) == Some(t.month) && s[5] == '/'
    && Decimal.ParseFixed(s[6..10], 4) == Some(t.year)
    && Decimal.ParseFixed(s[10 + sepLen..12 + sepLen], 2) == Some(t.hour) && s[12 + sepLen] == ':'
    && Decimal.ParseFixed(s[13 + sepLen..], 2) == Some(t.minute)
  }

  /** `strftime('%d/%m/%Y<sep>%H:%M')`. */
  function Format(t: DateTime, sep: string): (r: string)
    requires Valid(t)
    ensures |r| == 15 + |sep|
  {
    Decimal.Pad2Width(t.day);
    Decimal.Pad2Width(t.month);
    Decimal.Pad4Width(t.year);
    Decimal.Pad2Width(t.hour);
    Decimal.Pad2Width(t.minute);
    Decimal.Pad(t.day, 2) + "/" + Decimal.Pad(t.month, 2) + "/" + Decimal.Pad(t.year, 4)
    + sep + Decimal.Pad(t.hour, 2) + ":" + Decimal.Pad(t.minute, 2)
  }

  /** Every field of the formatted reading reads back, and the separator sits
      between the date and the time. */
  lemma FormatLidoDeVolta(t: DateTime, sep: string)
    requires Valid(t)
    ensures var r := Format(t, sep); Campos(r, |sep|, t) && r[10..10 + |sep|] == sep
  {
    var dd, mm, yyyy := Decimal.Pad(t.day, 2), Decimal.Pad(t.month, 2), Decimal.Pad(t.year, 4);
    var hh, mi := Decimal.Pad(t.hour, 2), Decimal.Pad(t.minute, 2);
    Decimal.Pad2Width(t.day);
    Decimal.Pad2Width(t.month);
    Decimal.Pad4Width(t.year);
    Decimal.Pad2Width(t.hour);
    Decimal.Pad2Width(t.minute);
    Decimal.PadParsesBack(t.day, 2);
    Decimal.PadParsesBack(t.month, 2);
    Decimal.PadParsesBack(t.year, 4);
    Decimal.PadParsesBack(t.hour, 2);
    Decimal.PadParsesBack(t.minute, 2);
    var r := Format(t, sep);
    assert r == dd + "/" + mm + "/" + yyyy + sep + hh + ":" + mi;
    Fatias(dd, mm, yyyy, sep, hh, mi);
  }

  /** Where each piece of `dd/mm/yyyy<sep>hh:mi` sits. */
  lemma Fatias(dd: string, mm: string, yyyy: string, sep: string, hh: string, mi: string)
    requires |dd| == 2 && |mm| == 2 && |yyyy| == 4 && |hh| == 2 && |mi| == 2
    ensures var r := dd + "/" + mm + "/" + yyyy + sep + hh + ":" + mi;
      && r[..2] == dd && r[2] == '/' && r[3..5] == mm && r[5] == '/' && r[6..10] == yyyy
      && r[10..10 + |sep|] == sep
      && r[10 + |sep|..12 + |sep|] == hh && r[12 + |sep|] == ':' && r[13 + |sep|..] == mi
  {
    var data := dd + "/" + mm + "/" + yyyy;
    var hora := hh + ":" + mi;
    assert data[..2] == dd && data[3..5] == mm && data[6..10] == yyyy;
    assert hora[..2] == hh && hora[3..] == mi;
    var r := dd + "/" + mm + "/" + yyyy + sep + hh + ":" + mi;
    assert r == data + sep + hora;
    assert r[..10] == data && r[10..10 + |sep|] == sep && r[10 + |sep|..] == hora;
  }
}
