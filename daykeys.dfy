/** The `YYYY-MM-DD` key the calendar and the streak counter build for a local
    calendar day (script.js:278, 320, 351, 362). */
module DayKeys {
  import opened Wrappers
  import opened Text

  /** A local calendar day as `getFullYear()`, `getMonth() + 1` and `getDate()` give it. */
  datatype CivilDate = CivilDate(year: int, month: nat, day: nat)

  /** Months and days as a `Date` reports them: both below 100, so each field pads to two digits. */
  predicate Reportable(d: CivilDate) {
    1 <= d.month <= 12 && 1 <= d.day <= 31
  }

  /** `${year}-${pad2(month)}-${pad2(day)}`. */
  function DayKey(d: CivilDate): (k: string)
    ensures Reportable(d) ==> |k| >= 7 && k[|k| - 6] == '-' && k[|k| - 3] == '-'
  {
    IntString(d.year) + "-" + Pad2(Decimal(d.month)) + "-" + Pad2(Decimal(d.day))
  }

  /** Reads a key back into its three numbers; None when the dashes are not where `DayKey` puts them. */
  function ParseDayKey(k: string): Option<CivilDate>
  {
    if |k| < 7 || k[|k| - 6] != '-' || k[|k| - 3] != '-' then None
    else Some(CivilDate(ParseInt(k[..|k| - 6]), ParseDecimal(k[|k| - 5..|k| - 3]), ParseDecimal(k[|k| - 2..])))
  }

  lemma DayKeyRoundTrip(d: CivilDate)
    requires Reportable(d)
    ensures ParseDayKey(DayKey(d)) == Some(d)
  {
    var y, m, dd := IntString(d.year), Pad2(Decimal(d.month)), Pad2(Decimal(d.day));
    Pad2Inverts(d.month);
    Pad2Inverts(d.day);
    IntStringInverts(d.year);
    var k := DayKey(d);
    assert k == y + "-" + m + "-" + dd;
    assert k[..|k| - 6] == y;
    assert k[|k| - 5..|k| - 3] == m;
    assert k[|k| - 2..] == dd;
  }

  /** Two days share a key exactly when they are the same day, so the calendar's
      set of keys stands for a set of days. */
  lemma DayKeyInjective(a: CivilDate, b: CivilDate)
    requires Reportable(a) && Reportable(b)
    ensures DayKey(a) == DayKey(b) <==> a == b
  {
    DayKeyRoundTrip(a);
    DayKeyRoundTrip(b);
  }
}
