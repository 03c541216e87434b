/**
 * `AShareFetcher`: the sina income, balance and cash-flow statements of an A-share stock
 * mapped to raw records, one per report period from 2010 on, each saved through
 * `save_to_db`. The same mapping is used by `DataFetcher` (see data_fetcher.dfy).
 */
module AShare {
  import opened Wrappers
  import opened Ordering
  import opened Cells
  import opened Dates
  import opened Store
  import opened BaseFetcher

  /**
   * One statement after `set_index`: its column labels and, per period label in its index,
   * the cells of that row.
   */
  datatype Sheet = Sheet(columns: set<string>, cells: map<string, map<string, Cell>>)

  datatype Sheets = Sheets(income: Sheet, balance: Sheet, cash: Sheet)

  /** `df.loc[period, col]`; a cell the frame does not hold reads NaN. */
  function CellAt(sheet: Sheet, period: string, col: string): Cell {
    if period in sheet.cells && col in sheet.cells[period] then sheet.cells[period][col] else NaN
  }

  /**
   * The nested `get_val(df, col_name)`: `None` for a column the frame lacks, otherwise the
   * coerced cell.
   */
  function GetVal(sheet: Sheet, period: string, col: string): (r: Option<real>)
    ensures col !in sheet.columns ==> r.None?
    ensures col in sheet.columns ==> r == Coerce(CellAt(sheet, period, col))
  {
    if col in sheet.columns then Coerce(CellAt(sheet, period, col)) else None
  }

  /** gross_profit starts as `None` and is set to revenue - cost only when both are truthy. */
  function GrossProfit(revenue: Option<real>, cost: Option<real>): (r: Option<real>)
    ensures r.Some? <==> Truthy(revenue) && Truthy(cost)
    ensures r.Some? ==> r.value == revenue.value - cost.value
  {
    if Truthy(revenue) && Truthy(cost) then Some(revenue.value - cost.value) else None
  }

  datatype Statement = Income | Balance | Cash

  function SheetOf(s: Sheets, st: Statement): Sheet {
    match st
    case Income => s.income
    case Balance => s.balance
    case Cash => s.cash
  }

  /**
   * How one field of the record is filled: from a column of one statement, with Python's
   * `or` falling back to a second column; or, for gross_profit, from revenue and cost.
   */
  datatype Rule =
    | Column(statement: Statement, name: string, fallback: Option<string>)
    | RevenueMinusCost

  /** revenue: total operating revenue, falling back to operating revenue. */
  const RevenueRule: Rule := Column(Income, "营业总收入", Some("营业收入"))

  const CostRule: Rule := Column(Income, "营业成本", None)

  /** The field mapping of the `data` dict, key by key. */
  const FieldRules: map<string, Rule> := map[
    "selling_expenses" := Column(Income, "销售费用", None),
    "admin_expenses" := Column(Income, "管理费用", None),
    "rd_expenses" := Column(Income, "研发费用", None),
    "financial_expenses" := Column(Income, "财务费用", None),
    "income_tax_expenses" := Column(Income, "所得税费用", None),
    "investment_income" := Column(Income, "投资收益", None),
    "operating_income" := Column(Income, "营业利润", None),
    "total_profit" := Column(Income, "利润总额", None),
    "net_income" := Column(Income, "净利润", None),
    "net_income_parent" := Column(Income, "归属于母公司所有者的净利润", None),
    "net_income_deducted" := Column(Income, "扣除非经常性损益后的净利润", None),
    "total_assets" := Column(Balance, "资产总计", None),
    "current_assets" := Column(Balance, "流动资产合计", None),
    "non_current_assets" := Column(Balance, "非流动资产合计", None),
    "total_liabilities" := Column(Balance, "负债合计", None),
    "current_liabilities" := Column(Balance, "流动负债合计", None),
    "non_current_liabilities" := Column(Balance, "非流动负债合计", None),
    "total_equity" := Column(Balance, "所有者权益(或股东权益)合计", None),
    "share_capital" := Column(Balance, "实收资本(或股本)", None),
    "retained_earnings" := Column(Balance, "未分配利润", None),
    "cash_equivalents" := Column(Balance, "货币资金", None),
    "accounts_receivable" := Column(Balance, "应收账款", None),
    "inventory" := Column(Balance, "存货", None),
    "fixed_assets" := Column(Balance, "固定资产净额", Some("固定资产")),
    "intangible_assets" := Column(Balance, "无形资产", None),
    "goodwill" := Column(Balance, "商誉", None),
    "short_term_debt" := Column(Balance, "短期借款", None),
    "long_term_debt" := Column(Balance, "长期借款", None),
    "accounts_payable" := Column(Balance, "应付账款", None),
    "contract_liabilities" := Column(Balance, "合同负债", Some("预收款项")),
    "cfo_net" := Column(Cash, "经营活动产生的现金流量净额", None),
    "cfi_net" := Column(Cash, "投资活动产生的现金流量净额", None),
    "cff_net" := Column(Cash, "筹资活动产生的现金流量净额", None),
    "net_cash_flow" := Column(Cash, "现金及现金等价物净增加额", None),
    "capex" := Column(Cash, "购建固定资产、无形资产和其他长期资产所支付的现金", None),
    "cash_paid_for_dividends" := Column(Cash, "分配股利、利润或偿付利息所支付的现金", None),
    // last, so that looking them up needs no comparison with the other labels
    "gross_profit" := RevenueMinusCost,
    "cost_of_revenue" := CostRule,
    "revenue" := RevenueRule
  ]

  /** market is not a field of the mapping; the writers that need it supply it themselves. */
  lemma MarketNotAField()
    ensures "market" !in FieldRules
  {
  }

  /** data_quality is not a field of the mapping, so saving a record never names it. */
  lemma QualityNotAField()
    ensures "data_quality" !in FieldRules
  {
  }

  /** The value a column rule gives for one period. */
  function ColumnValue(s: Sheets, p: string, rule: Rule): Option<real>
    requires rule.Column?
  {
    var first := GetVal(SheetOf(s, rule.statement), p, rule.name);
    match rule.fallback
    case None => first
    case Some(second) => Or(first, GetVal(SheetOf(s, rule.statement), p, second))
  }

  /** The `data` dict of one period: every field of the mapping, gross_profit computed last. */
  function Record(s: Sheets, p: string): (r: map<string, Option<real>>)
    ensures r.Keys == FieldRules.Keys
  {
    var revenue := ColumnValue(s, p, RevenueRule);
    var cost := ColumnValue(s, p, CostRule);
    map k | k in FieldRules ::
      match FieldRules[k]
      case Column(_, _, _) => ColumnValue(s, p, FieldRules[k])
      case RevenueMinusCost => GrossProfit(revenue, cost)
  }

  /**
   * revenue takes 营业总收入 when it is truthy and 营业收入 otherwise, so a reported zero
   * total revenue is replaced by operating revenue, even by a missing one.
   */
  lemma RevenueFallback(s: Sheets, p: string)
    ensures Record(s, p)["revenue"] ==
      if Truthy(GetVal(s.income, p, "营业总收入")) then GetVal(s.income, p, "营业总收入")
      else GetVal(s.income, p, "营业收入")
  {
    assert FieldRules["revenue"] == RevenueRule;
  }

  /** gross_profit is present exactly when revenue and cost are both truthy, and is their difference. */
  lemma GrossProfitComputed(s: Sheets, p: string)
    ensures var r := Record(s, p);
      (r["gross_profit"].Some? <==> Truthy(r["revenue"]) && Truthy(r["cost_of_revenue"]))
      && (r["gross_profit"].Some? ==> r["gross_profit"].value == r["revenue"].value - r["cost_of_revenue"].value)
  {
    assert FieldRules["gross_profit"] == RevenueMinusCost;
    assert FieldRules["revenue"] == RevenueRule && FieldRules["cost_of_revenue"] == CostRule;
  }

  /** The periods processed: the sorted intersection of the three statements' index labels. */
  function Periods(s: Sheets): (r: seq<string>)
    ensures forall x :: x in r <==> x in s.income.cells && x in s.balance.cells && x in s.cash.cells
    ensures forall i, j | 0 <= i < j < |r| :: StrLe(r[i], r[j]) && r[i] != r[j]
  {
    SortedStrings(s.income.cells.Keys * s.balance.cells.Keys * s.cash.cells.Keys)
  }

  /** The date of a kept period label: one `strptime("%Y%m%d")` accepts, in 2010 or later. */
  function Kept(period: string): (r: Option<Date>)
    ensures r.Some? ==> ValidDate(r.value) && r.value.year >= 2010 && ParseCompact(period) == r
    ensures r.None? <==> ParseCompact(period).None? || ParseCompact(period).value.year < 2010
  {
    match ParseCompact(period)
    case None => None
    case Some(d) => if d.year < 2010 then None else Some(d)
  }

  /** The `save_to_db` call for a kept period. */
  function PeriodRequest(stock: string, s: Sheets, period: string, d: Date): SaveRequest
    requires ValidDate(d)
  {
    SaveRequest(stock, IsoString(d), ReportTypeOfMonth(d.month), ToCells(Record(s, period)), "CN", "CNY", None)
  }

  /** The saves a run makes for the given period labels, in order. */
  function Requests(stock: string, s: Sheets, labels: seq<string>): seq<SaveRequest>
    decreases |labels|
  {
    if labels == [] then []
    else
      var last := labels[|labels| - 1];
      Requests(stock, s, labels[..|labels| - 1])
      + match Kept(last) case Some(d) => [PeriodRequest(stock, s, last, d)] case None => []
  }

  /** Adding one period label to a run adds its save, if any, at the end. */
  lemma RequestsStep(stock: string, s: Sheets, labels: seq<string>, i: int)
    requires 0 <= i < |labels|
    ensures Kept(labels[i]).None? ==> Requests(stock, s, labels[..i + 1]) == Requests(stock, s, labels[..i])
    ensures Kept(labels[i]).Some? ==>
      Requests(stock, s, labels[..i + 1]) ==
      Requests(stock, s, labels[..i]) + [PeriodRequest(stock, s, labels[i], Kept(labels[i]).value)]
  {
    assert labels[..i + 1][..i] == labels[..i];
    if Kept(labels[i]).None? {
      assert Requests(stock, s, labels[..i]) + [] == Requests(stock, s, labels[..i]);
    }
  }

  /** Applying one more save after a run. */
  lemma ApplyOneMore(schema: Schema, rows: map<Key, Row>, reqs: seq<SaveRequest>, req: SaveRequest)
    ensures ApplySaves(schema, rows, reqs + [req]) == SaveEffect(schema, ApplySaves(schema, rows, reqs), req)
  {
    assert (reqs + [req])[..|reqs|] == reqs;
  }

  /** A run saves exactly one record per kept label, for that label's period and type. */
  lemma {:induction false} RequestsSpec(stock: string, s: Sheets, labels: seq<string>)
    ensures forall r :: r in Requests(stock, s, labels) <==>
      exists l :: l in labels && Kept(l).Some? && r == PeriodRequest(stock, s, l, Kept(l).value)
    decreases |labels|
  {
    if labels != [] {
      var n := |labels| - 1;
      RequestsSpec(stock, s, labels[..n]);
      assert labels == labels[..n] + [labels[n]];
    }
  }

  /**
   * A run keeps the order of its labels: the run over a concatenation is the run over each
   * part in turn; a label makes one save exactly when it is kept.
   */
  lemma {:induction false} RequestsAppend(stock: string, s: Sheets, a: seq<string>, b: seq<string>)
    ensures Requests(stock, s, a + b) == Requests(stock, s, a) + Requests(stock, s, b)
    decreases |b|
  {
    if b == [] {
      assert a + b == a;
    } else {
      var n := |b| - 1;
      var l := b[n];
      RequestsAppend(stock, s, a, b[..n]);
      assert (a + b)[..|a + b| - 1] == a + b[..n];
      assert (a + b)[|a + b| - 1] == l;
      var tail := match Kept(l) case Some(d) => [PeriodRequest(stock, s, l, d)] case None => [];
      calc {
        Requests(stock, s, a + b);
        Requests(stock, s, a + b[..n]) + tail;
        Requests(stock, s, a) + Requests(stock, s, b[..n]) + tail;
        Requests(stock, s, a) + (Requests(stock, s, b[..n]) + tail);
      }
    }
  }

  /**
   * The loop raises out of `_process_and_save` when the table has no is_locked column and
   * there is a save to make: the first save's lock query raises.
   */
  predicate RunRaises(schema: Schema, stock: string, s: Sheets, labels: seq<string>) {
    !HasLockColumn(schema) && Requests(stock, s, labels) != []
  }

  /** The loop raises exactly when some label is kept and the table has no is_locked column. */
  lemma RunRaisesIffKept(schema: Schema, stock: string, s: Sheets, labels: seq<string>)
    ensures RunRaises(schema, stock, s, labels) <==> !HasLockColumn(schema) && exists l | l in labels :: Kept(l).Some?
  {
    RequestsSpec(stock, s, labels);
    if Requests(stock, s, labels) != [] {
      assert Requests(stock, s, labels)[0] in Requests(stock, s, labels);
    }
    if l :| l in labels && Kept(l).Some? {
      assert PeriodRequest(stock, s, l, Kept(l).value) in Requests(stock, s, labels);
    }
  }

  /**
   * `_process_and_save`: for each common period label in sorted order, skip it when it is
   * not a date or is before 2010, else save its record with market 'CN' and currency 'CNY'.
   * `raised` reports the exception of a save that leaves the loop.
   */
  method ProcessAndSave(t: Table, stock: string, s: Sheets) returns (raised: bool)
    requires t.Valid() && t.schema.unique == RawUnique
    modifies t
    ensures t.Valid()
    ensures raised == RunRaises(t.schema, stock, s, Periods(s))
    ensures t.rows == ApplySaves(t.schema, old(t.rows), Requests(stock, s, Periods(s)))
  {
    raised := SaveLabels(t, stock, s, Periods(s));
  }

  /** The loop of `_process_and_save` over the given period labels. */
  method SaveLabels(t: Table, stock: string, s: Sheets, periods: seq<string>) returns (raised: bool)
    requires t.Valid() && t.schema.unique == RawUnique
    modifies t
    ensures t.Valid()
    ensures raised == RunRaises(t.schema, stock, s, periods)
    ensures t.rows == ApplySaves(t.schema, old(t.rows), Requests(stock, s, periods))
  {
    var i := 0;
    while i < |periods|
      invariant 0 <= i <= |periods|
      invariant t.Valid()
      invariant t.rows == ApplySaves(t.schema, old(t.rows), Requests(stock, s, periods[..i]))
      invariant !HasLockColumn(t.schema) ==> Requests(stock, s, periods[..i]) == []
    {
      raised := SaveLabel(t, stock, s, periods, i, old(t.rows));
      if raised {
        return;
      }
      i := i + 1;
    }
    assert periods[..i] == periods;
    raised := false;
  }

  /**
   * The pass over label `i` of the loop, after the passes before it: when it raises, the
   * run has raised and written nothing; otherwise the table holds the saves up to label `i`.
   */
  method SaveLabel(t: Table, stock: string, s: Sheets, periods: seq<string>, i: nat, ghost start: map<Key, Row>)
    returns (raised: bool)
    requires t.Valid() && t.schema.unique == RawUnique && i < |periods|
    requires t.rows == ApplySaves(t.schema, start, Requests(stock, s, periods[..i]))
    requires !HasLockColumn(t.schema) ==> Requests(stock, s, periods[..i]) == []
    modifies t
    ensures t.Valid()
    ensures raised ==> RunRaises(t.schema, stock, s, periods) && t.rows == ApplySaves(t.schema, start, Requests(stock, s, periods))
    ensures !raised ==> t.rows == ApplySaves(t.schema, start, Requests(stock, s, periods[..i + 1]))
    ensures !raised && !HasLockColumn(t.schema) ==> Requests(stock, s, periods[..i + 1]) == []
  {
    LabelStep(t.schema, start, stock, s, periods, i);
    raised := SavePeriod(t, stock, s, periods[i]);
    if raised {
      RaiseEndsLabels(t.schema, stock, s, periods, i);
      NoLockColumnNoWrites(t.schema, start, Requests(stock, s, periods));
    }
  }

  /** The table after one pass of the loop over `period`. */
  function PassEffect(schema: Schema, rows: map<Key, Row>, stock: string, s: Sheets, period: string): map<Key, Row> {
    match Kept(period)
    case None => rows
    case Some(d) => SaveEffect(schema, rows, PeriodRequest(stock, s, period, d))
  }

  /** What the saves up to label `i` leave, given those before it. */
  lemma LabelStep(schema: Schema, rows: map<Key, Row>, stock: string, s: Sheets, periods: seq<string>, i: nat)
    requires i < |periods|
    ensures Kept(periods[i]).None? ==> Requests(stock, s, periods[..i + 1]) == Requests(stock, s, periods[..i])
    ensures ApplySaves(schema, rows, Requests(stock, s, periods[..i + 1])) ==
      PassEffect(schema, ApplySaves(schema, rows, Requests(stock, s, periods[..i])), stock, s, periods[i])
  {
    RequestsStep(stock, s, periods, i);
    if Kept(periods[i]).Some? {
      ApplyOneMore(schema, rows, Requests(stock, s, periods[..i]), PeriodRequest(stock, s, periods[i], Kept(periods[i]).value));
    }
  }

  /** A kept label on a table without is_locked raises, and the run has then written nothing. */
  lemma RaiseEndsLabels(schema: Schema, stock: string, s: Sheets, periods: seq<string>, i: nat)
    requires i < |periods| && !HasLockColumn(schema) && Kept(periods[i]).Some?
    ensures RunRaises(schema, stock, s, periods)
  {
    RequestsStep(stock, s, periods, i);
    RequestsAppend(stock, s, periods[..i + 1], periods[i + 1..]);
    assert periods[..i + 1] + periods[i + 1..] == periods;
  }

  /**
   * One pass of the loop: skip a label that is not a date from 2010 on, else save its
   * record; `raised` reports the save's lock query raising.
   */
  method SavePeriod(t: Table, stock: string, s: Sheets, period: string) returns (raised: bool)
    requires t.Valid() && t.schema.unique == RawUnique
    modifies t
    ensures t.Valid()
    ensures raised <==> Kept(period).Some? && !HasLockColumn(t.schema)
    ensures t.rows == PassEffect(t.schema, old(t.rows), stock, s, period)
  {
    var kept := Kept(period);
    if kept.None? {
      return false;
    }
    var reportDate := kept.value;
    var reportPeriod := IsoString(reportDate);
    var reportType := ReportTypeOfMonth(reportDate.month);
    var data := ToCells(Record(s, period));
    var req := SaveRequest(stock, reportPeriod, reportType, data, "CN", "CNY", None);
    assert req == PeriodRequest(stock, s, period, reportDate);
    var _, outcome := SaveToDb(t, req);
    raised := outcome.LockQueryRaised?;
  }

  /**
   * `fetch_financial_data`: `None` stands for a statement download that raised. The result
   * is `True` once the periods are processed, and `False` when a download or a save raised.
   */
  method FetchFinancialData(t: Table, stock: string, sheets: Option<Sheets>) returns (ok: bool)
    requires t.Valid() && t.schema.unique == RawUnique
    modifies t
    ensures t.Valid()
    ensures ok == (sheets.Some? && !RunRaises(t.schema, stock, sheets.value, Periods(sheets.value)))
    ensures t.rows == if sheets.Some? then ApplySaves(t.schema, old(t.rows), Requests(stock, sheets.value, Periods(sheets.value))) else old(t.rows)
  {
    if sheets.None? {
      return false;
    }
    var raised := ProcessAndSave(t, stock, sheets.value);
    return !raised;
  }
}
