/**
 * Calendar dates as the fetchers and the calculator handle them: `datetime.strptime` with
 * "%Y%m%d", `strftime("%Y-%m-%d")`, month-based report types and `DateOffset(years=1)`.
 */
module Dates {
  import opened Wrappers
  import opened Texts
  import Ordering

  datatype Date = Date(year: int, month: int, day: int)

  predicate IsLeapYear(y: int) {
    y % 4 == 0 && (y % 100 != 0 || y % 400 == 0)
  }

  function DaysInMonth(y: int, m: int): int
    requires 1 <= m <= 12
  {
    if m == 2 then (if IsLeapYear(y) then 29 else 28)
    else if m == 4 || m == 6 || m == 9 || m == 11 then 30
    else 31
  }

  /** A date Python's `datetime` accepts (years 1 to 9999). */
  predicate ValidDate(d: Date) {
    1 <= d.year <= 9999 && 1 <= d.month <= 12 && 1 <= d.day <= DaysInMonth(d.year, d.month)
  }

  // `datetime.strptime(s, "%Y%m%d")`: CPython turns the format into the regular expression
  //   (?P<Y>\d\d\d\d)(?P<m>1[0-2]|0[1-9]|[1-9])(?P<d>3[01]|[12]\d|0[1-9]|[1-9]| [1-9])
  // matches it at the start of `s` (alternatives tried in order, backtracking into the
  // month when no day alternative fits), fails with "unconverted data remains" unless the
  // match consumed all of `s`, and fails when the fields do not form a real date.

  /** The month alternatives that match at `p`, in the order the regex tries them. */
  function MonthAlternatives(s: string, p: nat): seq<(int, nat)> {
    (if p + 1 < |s| && s[p] == '1' && '0' <= s[p + 1] <= '2' then [(10 + DigitValue(s[p + 1]), p + 2)] else [])
    + (if p + 1 < |s| && s[p] == '0' && '1' <= s[p + 1] <= '9' then [(DigitValue(s[p + 1]), p + 2)] else [])
    + (if p < |s| && '1' <= s[p] <= '9' then [(DigitValue(s[p]), p + 1)] else [])
  }

  /** The first day alternative that matches at `p`: the day and where the match ends. */
  function FirstDay(s: string, p: nat): Option<(int, nat)> {
    if p + 1 < |s| && s[p] == '3' && (s[p + 1] == '0' || s[p + 1] == '1') then
      Some((30 + DigitValue(s[p + 1]), p + 2))
    else if p + 1 < |s| && (s[p] == '1' || s[p] == '2') && IsDigit(s[p + 1]) then
      Some((10 * DigitValue(s[p]) + DigitValue(s[p + 1]), p + 2))
    else if p + 1 < |s| && s[p] == '0' && '1' <= s[p + 1] <= '9' then
      Some((DigitValue(s[p + 1]), p + 2))
    else if p < |s| && '1' <= s[p] <= '9' then
      Some((DigitValue(s[p]), p + 1))
    else if p + 1 < |s| && s[p] == ' ' && '1' <= s[p + 1] <= '9' then
      Some((DigitValue(s[p + 1]), p + 2))
    else None
  }

  /** Month, day and match end for the first month alternative some day alternative follows. */
  function MatchMonthDay(s: string, alts: seq<(int, nat)>): Option<(int, int, nat)>
    decreases |alts|
  {
    if alts == [] then None
    else match FirstDay(s, alts[0].1)
      case Some(dd) => Some((alts[0].0, dd.0, dd.1))
      case None => MatchMonthDay(s, alts[1..])
  }

  /** `datetime.strptime(s, "%Y%m%d")`; `None` stands for the `ValueError`. */
  function ParseCompact(s: string): (r: Option<Date>)
    ensures r.Some? ==> ValidDate(r.value)
  {
    if |s| < 4 || !AllDigits(s[..4]) then None
    else match MatchMonthDay(s, MonthAlternatives(s, 4))
      case None => None
      case Some(md) =>
        var d := Date(DigitsValue(s[..4]), md.0, md.1);
        if md.2 == |s| && ValidDate(d) then Some(d) else None
  }

  function Pad2(n: int): (s: string)
    requires 0 <= n < 100
    ensures |s| == 2 && AllDigits(s)
  {
    [DigitChar(n / 10), DigitChar(n % 10)]
  }

  function Pad4(n: int): (s: string)
    requires 0 <= n < 10000
    ensures |s| == 4 && AllDigits(s)
  {
    [DigitChar(n / 1000), DigitChar(n / 100 % 10), DigitChar(n / 10 % 10), DigitChar(n % 10)]
  }

  lemma Pad2Value(n: int)
    requires 0 <= n < 100
    ensures DigitsValue(Pad2(n)) == n
  {
    var s := Pad2(n);
    assert s[..1][..0] == [];
    assert s[..1] == [DigitChar(n / 10)];
    assert DigitsValue(s[..1]) == n / 10;
  }

  lemma Pad4Value(n: int)
    requires 0 <= n < 10000
    ensures DigitsValue(Pad4(n)) == n
  {
    var s := Pad4(n);
    var n1, n2, n3 := n / 10, n / 100, n / 1000;
    assert n2 == n1 / 10 && n3 == n2 / 10;
    assert s[..1][..0] == [] && s[..1] == [DigitChar(n3)];
    assert s[..2][..1] == s[..1] && s[..3][..2] == s[..2] && s[..4] == s;
    assert DigitsValue(s[..1]) == n3;
    assert DigitsValue(s[..2]) == n2 by {
      assert DigitsValue(s[..2]) == n3 * 10 + n2 % 10;
    }
    assert DigitsValue(s[..3]) == n1 by {
      assert DigitsValue(s[..3]) == n2 * 10 + n1 % 10;
    }
    assert DigitsValue(s) == n1 * 10 + n % 10;
  }

  /** The eight-digit label the sina sheets use for a period, e.g. "20231231". */
  function CompactString(d: Date): string
    requires ValidDate(d)
  {
    Pad4(d.year) + Pad2(d.month) + Pad2(d.day)
  }

  /** `strftime("%Y-%m-%d")`, e.g. "2023-12-31". */
  function IsoString(d: Date): (s: string)
    requires ValidDate(d)
    ensures |s| == 10
  {
    Pad4(d.year) + "-" + Pad2(d.month) + "-" + Pad2(d.day)
  }

  /** An eight-digit period label parses to the date it spells. */
  lemma ParseCompactRoundTrip(d: Date)
    requires ValidDate(d)
    ensures ParseCompact(CompactString(d)) == Some(d)
  {
    var s := CompactString(d);
    assert s[..4] == Pad4(d.year);
    Pad4Value(d.year);
    var m, dd := d.month, d.day;
    assert s[4] == DigitChar(m / 10) && s[5] == DigitChar(m % 10);
    assert s[6] == DigitChar(dd / 10) && s[7] == DigitChar(dd % 10);
    if m >= 10 {
      assert MonthAlternatives(s, 4)[0] == (m, 6);
    } else {
      assert MonthAlternatives(s, 4) == [(m, 6)];
    }
    assert FirstDay(s, 6) == Some((dd, 8));
  }

  /**
   * The regex's single-digit month alternative: seven characters such as "2023131" are
   * read as 31 January 2023, not rejected.
   */
  lemma SevenCharacterLabel()
    ensures ParseCompact("2023131") == Some(Date(2023, 1, 31))
  {
    var s := "2023131";
    assert s[..4] == "2023";
    assert DigitsValue(s[..4]) == 2023 by {
      assert s[..4] == Pad4(2023);
      Pad4Value(2023);
    }
    assert MonthAlternatives(s, 4) == [(1, 5)];
  }

  /** `pd.to_datetime` on text of the form "YYYY-MM-DD". */
  function ParseIso(s: string): (r: Option<Date>)
    ensures r.Some? ==> ValidDate(r.value)
  {
    if |s| == 10 && s[4] == '-' && s[7] == '-' && AllDigits(s[..4]) && AllDigits(s[5..7]) && AllDigits(s[8..]) then
      var d := Date(DigitsValue(s[..4]), DigitsValue(s[5..7]), DigitsValue(s[8..]));
      if ValidDate(d) then Some(d) else None
    else None
  }

  lemma IsoRoundTrip(d: Date)
    requires ValidDate(d)
    ensures ParseIso(IsoString(d)) == Some(d)
  {
    var s := IsoString(d);
    assert s[..4] == Pad4(d.year) && s[5..7] == Pad2(d.month) && s[8..] == Pad2(d.day);
    Pad4Value(d.year);
    Pad2Value(d.month);
    Pad2Value(d.day);
  }

  /** Distinct dates have distinct period strings. */
  lemma IsoInjective(a: Date, b: Date)
    requires ValidDate(a) && ValidDate(b) && IsoString(a) == IsoString(b)
    ensures a == b
  {
    IsoRoundTrip(a);
    IsoRoundTrip(b);
  }

  /** The report type of a period ending in month `m`: 3/6/9/12 give Q1/S1/Q3/A. */
  function ReportTypeOfMonth(m: int): string {
    if m == 3 then "Q1"
    else if m == 6 then "S1"
    else if m == 9 then "Q3"
    else if m == 12 then "A"
    else "Other"
  }

  /** The classification is one-to-one on the four quarter-end months, 'Other' elsewhere. */
  lemma ReportTypeOfMonthCases(m: int)
    ensures ReportTypeOfMonth(m) == "Other" <==> m !in {3, 6, 9, 12}
    ensures ReportTypeOfMonth(m) in {"Q1", "S1", "Q3", "A", "Other"}
  {
  }

  /** `timestamp + DateOffset(years=1)`: same month and day a year on, 29 February kept in range. */
  function OneYearLater(d: Date): (r: Date)
    requires ValidDate(d) && d.year < 9999
    ensures ValidDate(r) && r.year == d.year + 1 && r.month == d.month
    ensures r.day == d.day || (d.month == 2 && d.day == 29 && r.day == 28)
  {
    var last := DaysInMonth(d.year + 1, d.month);
    Date(d.year + 1, d.month, if d.day <= last then d.day else last)
  }

  /** Chronological order. */
  predicate DateLe(a: Date, b: Date) {
    a.year < b.year || (a.year == b.year && (a.month < b.month || (a.month == b.month && a.day <= b.day)))
  }

  lemma DateLeIsTotalOrder()
    ensures Ordering.TotalOrder(DateLe)
  {
  }

  /** The dates of `s` in chronological order (a pandas `DatetimeIndex` after a join or pivot). */
  function SortedDates(s: set<Date>): (r: seq<Date>)
    ensures |r| == |s|
    ensures forall x :: x in r <==> x in s
    ensures forall i, j | 0 <= i < j < |r| :: DateLe(r[i], r[j]) && r[i] != r[j]
  {
    DateLeIsTotalOrder();
    Ordering.SortedSet(s, DateLe)
  }
}
