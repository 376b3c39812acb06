/**
 * The `YYYY-Www` and `YYYY-MM` filter tokens that the dashboard builds and the
 * financial endpoint takes apart again with `split` and `parseInt`.
 */
module Tokens {
  import opened Wrappers
  import opened Text

  /** `${ano}-W${pad(semana)}`: a year and a week number as a week token. */
  function WeekToken(year: nat, week: nat): string {
    NatToString(year) + "-W" + Pad2(week)
  }

  /** `${ano}-${pad(mes)}`: a year and a month (1 = January) as a month token. */
  function MonthToken(year: nat, month: nat): string {
    NatToString(year) + "-" + Pad2(month)
  }

  /**
   * `const [a, b] = token.split(sep)` followed by `parseInt` of each piece; a
   * missing second piece is `undefined`, which `parseInt` turns into NaN.
   */
  function Fields(token: string, sep: string): (r: (Option<nat>, Option<nat>))
    requires |sep| > 0
    ensures r.0 == ParseInt(Split(token, sep)[0])
  {
    var parts := Split(token, sep);
    (ParseInt(parts[0]), if |parts| > 1 then ParseInt(parts[1]) else None)
  }

  lemma ParseNatToString(n: nat)
    ensures ParseInt(NatToString(n)) == Some(n)
  {
    var s := NatToString(n);
    assert s + [] == s;
    ParseIntDigits(s, []);
    NatToStringValue(n);
  }

  lemma ParsePad2(n: nat)
    ensures ParseInt(Pad2(n)) == Some(n)
  {
    var s := Pad2(n);
    Pad2Value(n);
    assert s + [] == s;
    ParseIntDigits(s, []);
  }

  /** A week token reads back as the year and week it was built from. */
  lemma WeekTokenFields(year: nat, week: nat)
    ensures Fields(WeekToken(year, week), "-W") == (Some(year), Some(week))
  {
    Pad2Value(week);
    SplitDigitsThenTail(NatToString(year), "-W", Pad2(week));
    ParseNatToString(year);
    ParsePad2(week);
  }

  /** A month token reads back as the year and month it was built from. */
  lemma MonthTokenFields(year: nat, month: nat)
    ensures Fields(MonthToken(year, month), "-") == (Some(year), Some(month))
  {
    Pad2Value(month);
    SplitDigitsThenTail(NatToString(year), "-", Pad2(month));
    ParseNatToString(year);
    ParsePad2(month);
  }
}
