/**
 * The screening rules of the dashboard: the value-investing gap analysis against fixed
 * thresholds, the display category of a cell in the transposed report tables, and the
 * report-type filter of the history view. Number-to-text formatting is not modelled; a
 * displayed figure keeps the value it shows.
 */
module App {
  import opened Wrappers
  import opened Texts
  import opened Cells
  import opened Store

  /** The only framework `analyze_gap` knows. */
  const ValueInvesting := "价值投资 (巴菲特)"

  /** The four figures `analyze_gap` reads; `None` for a missing value. */
  datatype Metrics = Metrics(roe: Option<real>, grossMargin: Option<real>, debtToAsset: Option<real>, fcf: Option<real>)

  /** A displayed figure, before its digits are printed. */
  datatype Figure =
    | Dash                               // "-"
    | Percent(v: real)                   // "{v:.2f}%"
    | HundredMillions(v: real)           // "{v/1e8:.2f} 亿", v already divided
    | SignedPercent(v: real, note: string) // "{v:+.2f}%" followed by the note

  /** `format_val`: "-" for a missing value, else a percentage or an amount in units of 10^8. */
  function FormatVal(v: Option<real>, isPercent: bool): (r: Figure)
    ensures r == Dash <==> v.None?
    ensures v.Some? && isPercent ==> r == Percent(v.value)
    ensures v.Some? && !isPercent ==> r.HundredMillions? && r.v * 100000000.0 == v.value
  {
    match v
    case None => Dash
    case Some(x) => if isPercent then Percent(x) else HundredMillions(x / 100000000.0)
  }

  /** One row of the gap table. */
  datatype GapRow = GapRow(indicator: string, standard: string, actual: Figure, gap: Figure, status: string, reading: string)

  const Met := "✅ 达标"
  const Missing := "⚠️ 数据缺失"

  /** ROE against 15%: met exactly when ROE is at least 15. */
  function RoeRow(actual: Option<real>): (r: GapRow)
    ensures r.indicator == "ROE (净资产收益率)"
    ensures r.status == Met <==> actual.Some? && actual.value >= 15.0
    ensures r.status == Missing <==> actual.None?
    ensures r.gap == Dash <==> actual.None?
    ensures actual.Some? ==> r.gap == SignedPercent(actual.value - 15.0, "")
    ensures r.actual == FormatVal(actual, true)
  {
    match actual
    case None => GapRow("ROE (净资产收益率)", "> 15%", Dash, Dash, Missing, "盈利能力较弱或数据缺失")
    case Some(x) =>
      var gap := x - 15.0;
      GapRow("ROE (净资产收益率)", "> 15%", Percent(x), SignedPercent(gap, ""),
        if gap >= 0.0 then Met else "❌ 未达标",
        if gap >= 0.0 then "盈利能力强劲" else "盈利能力较弱或数据缺失")
  }

  /** Gross margin against 40%: met exactly when the margin is at least 40, low otherwise. */
  function MarginRow(actual: Option<real>): (r: GapRow)
    ensures r.indicator == "毛利率"
    ensures r.status == Met <==> actual.Some? && actual.value >= 40.0
    ensures r.status == "⚠️ 偏低" <==> actual.Some? && actual.value < 40.0
    ensures r.status == Missing <==> actual.None?
    ensures actual.Some? ==> r.gap == SignedPercent(actual.value - 40.0, "")
    ensures r.actual == FormatVal(actual, true)
  {
    match actual
    case None => GapRow("毛利率", "> 40%", Dash, Dash, Missing, "竞争激烈或数据缺失")
    case Some(x) =>
      var gap := x - 40.0;
      GapRow("毛利率", "> 40%", Percent(x), SignedPercent(gap, ""),
        if gap >= 0.0 then Met else "⚠️ 偏低",
        if gap >= 0.0 then "产品具备定价权" else "竞争激烈或数据缺失")
  }

  /** Debt ratio against 60%: the gap is the safety margin 60 − actual; met exactly when it is not negative. */
  function DebtRow(actual: Option<real>): (r: GapRow)
    ensures r.indicator == "资产负债率"
    ensures r.status == Met <==> actual.Some? && actual.value <= 60.0
    ensures r.status == "❌ 风险" <==> actual.Some? && actual.value > 60.0
    ensures r.status == Missing <==> actual.None?
    ensures actual.Some? ==> r.gap == SignedPercent(60.0 - actual.value, " (安全空间)")
    ensures r.actual == FormatVal(actual, true)
  {
    match actual
    case None => GapRow("资产负债率", "< 60%", Dash, Dash, Missing, "杠杆过高或数据缺失")
    case Some(x) =>
      var gap := 60.0 - x;
      GapRow("资产负债率", "< 60%", Percent(x), SignedPercent(gap, " (安全空间)"),
        if gap >= 0.0 then Met else "❌ 风险",
        if gap >= 0.0 then "财务结构健康" else "杠杆过高或数据缺失")
  }

  /** Free cash flow: positive exactly when above zero; never a gap; shown in units of 10^8. */
  function FcfRow(actual: Option<real>): (r: GapRow)
    ensures r.indicator == "自由现金流"
    ensures r.status == "✅ 正向" <==> actual.Some? && actual.value > 0.0
    ensures r.status == "❌ 负向" <==> actual.Some? && actual.value <= 0.0
    ensures r.status == Missing <==> actual.None?
    ensures r.gap == Dash
    ensures r.actual == FormatVal(actual, false)
  {
    GapRow("自由现金流", "> 0", FormatVal(actual, false), Dash,
      match actual
      case None => Missing
      case Some(x) => if x > 0.0 then "✅ 正向" else "❌ 负向",
      if actual.Some? && actual.value > 0.0 then "具备造血能力" else "持续烧钱或数据缺失")
  }

  /**
   * `analyze_gap`: nothing for any framework but value investing (the default "value"
   * included); for it, the ROE, gross-margin, debt and cash-flow rows in that order.
   */
  method AnalyzeGap(metrics: Metrics, framework: string) returns (results: seq<GapRow>)
    ensures framework != ValueInvesting ==> results == []
    ensures framework == ValueInvesting ==>
      results == [RoeRow(metrics.roe), MarginRow(metrics.grossMargin), DebtRow(metrics.debtToAsset), FcfRow(metrics.fcf)]
  {
    results := [];
    if framework == ValueInvesting {
      results := results + [RoeRow(metrics.roe)];
      results := results + [MarginRow(metrics.grossMargin)];
      results := results + [DebtRow(metrics.debtToAsset)];
      results := results + [FcfRow(metrics.fcf)];
    }
  }

  /** Every met row has a non-negative gap, and only rows with a value can be met. */
  lemma MetMeansNoShortfall(m: Metrics)
    ensures forall r | r in [RoeRow(m.roe), MarginRow(m.grossMargin), DebtRow(m.debtToAsset)] ::
      r.status == Met ==> r.gap.SignedPercent? && r.gap.v >= 0.0
    ensures forall r | r in [RoeRow(m.roe), MarginRow(m.grossMargin), DebtRow(m.debtToAsset), FcfRow(m.fcf)] ::
      r.status == Missing <==> r.actual == Dash
  {
  }

  /** How `fmt` shows one cell of the transposed tables. */
  datatype Shown =
    | Blank                     // "-" for None
    | AsGiven(s: string)        // text `float()` refuses, unchanged
    | Pct(x: Cell)              // "{x:.2f}%"
    | Plain(x: Cell)            // "{x:.2f}"
    | Scaled(x: Cell)           // "{x/1e8:.2f}"

  /** A field shown as a percentage by name: one of the ratio words, unless a plain ratio. */
  predicate PercentName(field: string) {
    Contains(field, "margin") || Contains(field, "roe") || Contains(field, "roa") || Contains(field, "yoy") ||
    Contains(field, "ratio") || Contains(field, "percent") || Contains(field, "rate")
  }

  predicate PlainRatio(field: string) {
    Contains(field, "current_ratio") || Contains(field, "cfo_to_net")
  }

  /**
   * `fmt(val, field_name)`: NULL is "-", text that is not a number is shown as it is;
   * a number is a percentage, plain, or (when the field's label carries [亿]) divided by 10^8.
   */
  function Fmt(val: Cell, field: string, labels: map<string, string>): (r: Shown)
    ensures r == Blank <==> val.Null?
    ensures r.AsGiven? <==> val.Str? && ParseFloat(val.s).None?
    ensures r.Pct? <==> !val.Null? && !r.AsGiven? && PercentName(field) && !PlainRatio(field)
    ensures r.Scaled? <==>
      !val.Null? && !r.AsGiven? && !PercentName(field) && field in labels && Contains(labels[field], "[亿]")
    ensures (r.Pct? || r.Plain? || r.Scaled?) ==> r.x.NaN? || r.x.Num?
  {
    var number := match val
      case Str(s) => (match ParseFloat(s) case None => Null case Some(v) => Num(v))
      case _ => val;
    if val.Null? then Blank
    else if number.Null? then AsGiven(val.s)
    else if PercentName(field) then (if PlainRatio(field) then Plain(number) else Pct(number))
    else if field in labels && Contains(labels[field], "[亿]") then Scaled(number)
    else Plain(number)
  }

  /**
   * The two ratios shown without '%': current_ratio through the exception, and
   * cfo_to_net_income because its name carries no ratio word at all.
   */
  lemma CashRatioShownPlain(v: real, labels: map<string, string>)
    requires "cfo_to_net_income" !in labels || !Contains(labels["cfo_to_net_income"], "[亿]")
    ensures Fmt(Num(v), "cfo_to_net_income", labels) == Plain(Num(v))
    ensures Fmt(Num(v), "current_ratio", labels) == Plain(Num(v))
  {
    var f := "cfo_to_net_income";
    LetterAbsent(f, "margin", 'g');
    LetterAbsent(f, "roa", 'a');
    LetterAbsent(f, "yoy", 'y');
    LetterAbsent(f, "ratio", 'a');
    LetterAbsent(f, "percent", 'p');
    LetterAbsent(f, "rate", 'a');
    LetterAbsent(f, "roe", 'r');
    assert OccursAt("current_ratio", "ratio", 8);
    assert OccursAt("current_ratio", "current_ratio", 0);
  }

  /** A pattern holding a character the text lacks does not occur in it. */
  lemma LetterAbsent(s: string, pat: string, c: char)
    requires c in pat && forall i | 0 <= i < |s| :: s[i] != c
    ensures !Contains(s, pat)
  {
    var k :| 0 <= k < |pat| && pat[k] == c;
    forall i: nat | i <= |s| ensures !OccursAt(s, pat, i) {
      if i + |pat| <= |s| {
        assert s[i..i + |pat|][k] == s[i + k];
      }
    }
  }

  /** The report-type choices of the history view. */
  const AllReports := "全部"

  function TypeChoice(choice: string): Option<string> {
    if choice == "年报 (A)" then Some("A")
    else if choice == "三季报 (Q3)" then Some("Q3")
    else if choice == "半年报 (S1)" then Some("S1")
    else if choice == "一季报 (Q1)" then Some("Q1")
    else None
  }

  /** `df[df['report_type'] == target]`: the rows of that type, in their order. */
  function OfType(rows: seq<Row>, target: string): seq<Row>
    decreases |rows|
  {
    if rows == [] then []
    else
      var rest := OfType(rows[..|rows| - 1], target);
      var last := rows[|rows| - 1];
      if Get(last, "report_type") == Text(target) then rest + [last] else rest
  }

  /**
   * The filter: "全部" keeps every row; a known choice keeps its type's rows; any other
   * choice is a `KeyError`, here `None`.
   */
  function FilterReports(rows: seq<Row>, choice: string): (r: Option<seq<Row>>)
    ensures choice == AllReports ==> r == Some(rows)
    ensures r.None? <==> choice != AllReports && TypeChoice(choice).None?
  {
    if choice == AllReports then Some(rows)
    else match TypeChoice(choice)
      case None => None
      case Some(t) => Some(OfType(rows, t))
  }

  /** The result holds a row iff the input holds it and it has the chosen type. */
  lemma {:induction false} OfTypeMembers(rows: seq<Row>, target: string)
    ensures |OfType(rows, target)| <= |rows|
    ensures forall x :: x in OfType(rows, target) <==> x in rows && Get(x, "report_type") == Text(target)
    decreases |rows|
  {
    if rows != [] {
      var init := rows[..|rows| - 1];
      OfTypeMembers(init, target);
      assert rows == init + [rows[|rows| - 1]];
    }
  }

  /**
   * The filter keeps order and multiplicity: filtering a concatenation filters each part in
   * turn; a row is kept exactly when it has the type.
   */
  lemma {:induction false} OfTypeAppend(a: seq<Row>, b: seq<Row>, target: string)
    ensures OfType(a + b, target) == OfType(a, target) + OfType(b, target)
    decreases |b|
  {
    if b == [] {
      assert a + b == a;
    } else {
      var n := |b| - 1;
      var x := b[n];
      OfTypeAppend(a, b[..n], target);
      assert (a + b)[..|a + b| - 1] == a + b[..n];
      assert (a + b)[|a + b| - 1] == x;
      if Get(x, "report_type") == Text(target) {
        assert OfType(a + b, target) == OfType(a + b[..n], target) + [x];
        assert OfType(b, target) == OfType(b[..n], target) + [x];
        assert OfType(a, target) + OfType(b[..n], target) + [x] == OfType(a, target) + (OfType(b[..n], target) + [x]);
      }
    }
  }

  /** Each row of the type occurs as often in the result as in the input; other rows not at all. */
  lemma {:induction false} OfTypeCounts(rows: seq<Row>, target: string, x: Row)
    ensures multiset(OfType(rows, target))[x] == if Get(x, "report_type") == Text(target) then multiset(rows)[x] else 0
    decreases |rows|
  {
    if rows != [] {
      var init := rows[..|rows| - 1];
      var last := rows[|rows| - 1];
      OfTypeCounts(init, target, x);
      assert rows == init + [last];
    }
  }

  /** Filtering twice by the same choice is filtering once. */
  lemma {:induction false} OfTypeIdempotent(rows: seq<Row>, target: string)
    ensures OfType(OfType(rows, target), target) == OfType(rows, target)
    decreases |rows|
  {
    if rows != [] {
      var init := rows[..|rows| - 1];
      var last := rows[|rows| - 1];
      var rest := OfType(init, target);
      OfTypeIdempotent(init, target);
      if Get(last, "report_type") == Text(target) {
        var r := rest + [last];
        assert r[..|r| - 1] == rest;
      }
    }
  }

  /** Every choice but "全部" picks one of the four report types. */
  lemma ChoicesAreReportTypes(choice: string)
    ensures TypeChoice(choice).Some? ==> TypeChoice(choice).value in {"A", "Q3", "S1", "Q1"}
    ensures TypeChoice(AllReports).None?
  {
  }
}
