/**
 * `HKShareFetcher`: the annual income, balance and cash-flow statements of a Hong Kong
 * stock, delivered in long form (one row per report date and item), pivoted wide, joined on
 * the report date and saved as one raw record per date, the whole joined row kept as
 * raw_data.
 */
module HkShare {
  import opened Wrappers
  import opened Texts
  import opened Cells
  import opened Dates
  import opened Store
  import opened BaseFetcher

  /** One row of a long statement: REPORT_DATE, STD_ITEM_NAME and AMOUNT. */
  datatype Entry = Entry(date: Date, item: string, amount: Cell)

  /** A wide frame indexed by report date: its column labels and, per date, the cells it holds. */
  datatype Frame = Frame(columns: set<string>, cells: map<Date, map<string, Cell>>)

  /** `pd.DataFrame()`. */
  const EmptyFrame: Frame := Frame({}, map[])

  /** `frame.loc[d, c]`; a cell the frame does not hold reads NaN. */
  function CellAt(f: Frame, d: Date, c: string): Cell {
    if d in f.cells && c in f.cells[d] then f.cells[d][c] else NaN
  }

  // ---------------------------------------------------------------------------------------
  // _pivot_data
  // ---------------------------------------------------------------------------------------

  /**
   * `_pivot_data`: an empty statement gives an empty frame; otherwise duplicate
   * (date, item) pairs are dropped, the first one kept, and the amounts are pivoted to one
   * row per date and one column per item. An entry earlier in the list overrides the
   * pivot of the entries after it, so the first occurrence wins.
   */
  function Pivot(entries: seq<Entry>): Frame
    decreases |entries|
  {
    if entries == [] then EmptyFrame
    else
      var rest := Pivot(entries[1..]);
      var e := entries[0];
      var row := if e.date in rest.cells then rest.cells[e.date] else map[];
      Frame(rest.columns + {e.item}, rest.cells[e.date := row[e.item := e.amount]])
  }

  /** The pivot has a date, a column, and a cell exactly where some entry names them. */
  lemma {:induction false} PivotCovers(entries: seq<Entry>)
    ensures forall d :: d in Pivot(entries).cells <==> exists i | 0 <= i < |entries| :: entries[i].date == d
    ensures forall c :: c in Pivot(entries).columns <==> exists i | 0 <= i < |entries| :: entries[i].item == c
    ensures forall d, c | d in Pivot(entries).cells ::
      c in Pivot(entries).cells[d] <==> exists i | 0 <= i < |entries| :: entries[i].date == d && entries[i].item == c
    decreases |entries|
  {
    if entries != [] {
      var rest := entries[1..];
      PivotCovers(rest);
      forall i | 1 <= i < |entries|
        ensures entries[i] == rest[i - 1]
      {
      }
      forall j | 0 <= j < |rest|
        ensures rest[j] == entries[j + 1]
      {
      }
    }
  }

  /** Each (date, item) pair reads the amount of its first entry. */
  lemma {:induction false} PivotFirstSeen(entries: seq<Entry>, i: nat)
    requires i < |entries|
    requires forall j | 0 <= j < i :: entries[j].date != entries[i].date || entries[j].item != entries[i].item
    ensures CellAt(Pivot(entries), entries[i].date, entries[i].item) == entries[i].amount
    decreases i
  {
    if i > 0 {
      var rest := entries[1..];
      forall j | 0 <= j < i - 1
        ensures rest[j].date != rest[i - 1].date || rest[j].item != rest[i - 1].item
      {
        assert rest[j] == entries[j + 1] && rest[i - 1] == entries[i];
      }
      PivotFirstSeen(rest, i - 1);
      assert rest[i - 1] == entries[i];
    }
  }

  // ---------------------------------------------------------------------------------------
  // The outer joins of fetch_financial_data
  // ---------------------------------------------------------------------------------------

  predicate EndsWith(s: string, suffix: string) {
    |suffix| <= |s| && s[|s| - |suffix|..] == suffix
  }

  /** A right-hand column's label after the join: suffixed when the left frame has it too. */
  function Renamed(left: set<string>, c: string, suffix: string): string {
    if c in left then c + suffix else c
  }

  /**
   * The right-hand column that lands on label `n`, if any: a suffixed label of a column both
   * frames have, or a right-hand column the left frame lacks.
   */
  function RightSource(left: Frame, right: Frame, suffix: string, n: string): Option<string> {
    if EndsWith(n, suffix) && n[..|n| - |suffix|] in left.columns && n[..|n| - |suffix|] in right.columns
    then Some(n[..|n| - |suffix|])
    else if n in right.columns && n !in left.columns then Some(n)
    else None
  }

  /** The cell of the joined frame at date `d` and label `n`. */
  function JoinedCell(left: Frame, right: Frame, suffix: string, d: Date, n: string): Cell {
    match RightSource(left, right, suffix, n)
    case Some(c) => CellAt(right, d, c)
    case None => CellAt(left, d, n)
  }

  /**
   * `left.join(right, how='outer', rsuffix=suffix)`: every date of either frame; the left
   * frame's columns, then the right frame's, suffixed where the left frame has the label.
   */
  function Join(left: Frame, right: Frame, suffix: string): Frame {
    var columns := left.columns + set c | c in right.columns :: Renamed(left.columns, c, suffix);
    Frame(columns,
      map d | d in left.cells.Keys + right.cells.Keys ::
        map n | n in columns :: JoinedCell(left, right, suffix, d, n))
  }

  /** The joined frame has the dates of both frames. */
  lemma JoinDates(left: Frame, right: Frame, suffix: string)
    ensures Join(left, right, suffix).cells.Keys == left.cells.Keys + right.cells.Keys
  {
  }

  /** A left-hand column keeps its label and its cells, unless its label looks suffixed. */
  lemma JoinKeepsLeft(left: Frame, right: Frame, suffix: string, d: Date, c: string)
    requires c in left.columns && !EndsWith(c, suffix)
    ensures c in Join(left, right, suffix).columns
    ensures CellAt(Join(left, right, suffix), d, c) == CellAt(left, d, c)
  {
    var j := Join(left, right, suffix);
    assert RightSource(left, right, suffix, c).None?;
    if d in j.cells {
      assert j.cells[d][c] == JoinedCell(left, right, suffix, d, c);
    } else {
      assert d !in left.cells;
    }
  }

  /**
   * A right-hand column lands on its label, suffixed when the left frame has it, with its
   * cells.
   */
  lemma JoinMovesRight(left: Frame, right: Frame, suffix: string, d: Date, c: string)
    requires c in right.columns && (c in left.columns || !EndsWith(c, suffix))
    ensures Renamed(left.columns, c, suffix) in Join(left, right, suffix).columns
    ensures CellAt(Join(left, right, suffix), d, Renamed(left.columns, c, suffix)) == CellAt(right, d, c)
  {
    var n := Renamed(left.columns, c, suffix);
    var j := Join(left, right, suffix);
    if c in left.columns {
      assert n[..|n| - |suffix|] == c;
      assert n[|n| - |suffix|..] == suffix;
    }
    assert RightSource(left, right, suffix, n) == Some(c);
    if d in j.cells {
      assert j.cells[d][n] == JoinedCell(left, right, suffix, d, n);
    } else {
      assert d !in right.cells;
    }
  }

  /** The frame `_process_and_save` receives: income, then balance (`_bal`), then cash (`_cash`). */
  function Merged(income: seq<Entry>, balance: seq<Entry>, cash: seq<Entry>): Frame {
    Join(Join(Pivot(income), Pivot(balance), "_bal"), Pivot(cash), "_cash")
  }

  /** Every date of the merged frame is the report date of some entry. */
  lemma MergedDates(income: seq<Entry>, balance: seq<Entry>, cash: seq<Entry>)
    ensures forall d | d in Merged(income, balance, cash).cells :: d in DatesOf(income + balance + cash)
  {
    var all := income + balance + cash;
    var left := Join(Pivot(income), Pivot(balance), "_bal");
    JoinDates(Pivot(income), Pivot(balance), "_bal");
    JoinDates(left, Pivot(cash), "_cash");
    forall d | d in Merged(income, balance, cash).cells
      ensures d in DatesOf(all)
    {
      if d in Pivot(income).cells {
        var i := PivotDateOf(income, d);
        assert all[i] == income[i];
      } else if d in Pivot(balance).cells {
        var i := PivotDateOf(balance, d);
        assert all[|income| + i] == balance[i];
      } else {
        var i := PivotDateOf(cash, d);
        assert all[|income| + |balance| + i] == cash[i];
      }
    }
  }

  /** The entry a date of a pivot comes from. */
  lemma PivotDateOf(entries: seq<Entry>, d: Date) returns (i: nat)
    requires d in Pivot(entries).cells
    ensures i < |entries| && entries[i].date == d
  {
    PivotCovers(entries);
    i :| 0 <= i < |entries| && entries[i].date == d;
  }

  function DatesOf(entries: seq<Entry>): set<Date> {
    set i | 0 <= i < |entries| :: entries[i].date
  }

  // ---------------------------------------------------------------------------------------
  // _process_and_save
  // ---------------------------------------------------------------------------------------

  /** `row` for one date of `df.iterrows()`: every column label with its cell. */
  function RowOf(f: Frame, d: Date): (r: map<string, Cell>)
    ensures r.Keys == f.columns
  {
    map c | c in f.columns :: CellAt(f, d, c)
  }

  /** `field_map`: each field's candidate item labels, in the order they are tried. */
  const FieldMap: map<string, seq<string>> := map[
    "revenue" := ["营业额", "营业收入", "营业总收入", "收入"],
    "gross_profit" := ["毛利"],
    "net_income_parent" := NetIncomeParentLabels,
    "net_income" := NetIncomeLabels,
    "eps_basic" := ["基本每股盈利", "基本每股收益"],
    "rd_expenses" := ["研究及开发成本", "研发费用"],
    "admin_expenses" := ["行政开支", "管理费用"],
    "selling_expenses" := ["销售及分销成本", "销售费用"],
    "total_assets" := ["资产总值", "资产合计", "总资产"],
    "total_liabilities" := ["负债总额", "负债合计", "总负债"],
    "total_equity" := ["本公司拥有人应占权益", "权益合计", "股东权益合计"],
    "current_assets" := ["流动资产", "流动资产合计"],
    "current_liabilities" := ["流动负债", "流动负债合计"],
    "non_current_assets" := ["非流动资产", "非流动资产合计"],
    "non_current_liabilities" := ["非流动负债", "非流动负债合计"],
    "cash_equivalents" := ["现金及现金等价物", "货币资金"],
    "inventory" := ["存货"],
    "accounts_receivable" := ["应收账款"],
    "cfo_net" := ["经营业务现金净额", "经营活动产生的现金流量净额"],
    "cfi_net" := ["投资业务现金净额", "投资活动产生的现金流量净额"],
    "cff_net" := ["融资业务现金净额", "筹资活动产生的现金流量净额"],
    "capex" := ["购建固定资产", "购买物业、厂房及设备"],
    "cash_paid_for_dividends" := ["已付股息", "分配股利、利润或偿付利息支付的现金"]
  ]

  const NetIncomeParentLabels: seq<string> := ["本公司拥有人应占溢利", "归属于母公司股东的净利润", "归母净利润"]

  const NetIncomeLabels: seq<string> := ["年度溢利", "净利润"]

  /** What `find_val` gives: a float or `None`, or the `ValueError` of `float(val)` on text. */
  datatype Find = Value(v: Option<real>) | Unparsable

  /** A candidate counts when the row has the label and its cell is neither NA nor ''. */
  predicate Usable(row: map<string, Cell>, c: string) {
    c in row && !IsNa(row[c]) && row[c] != Str("")
  }

  /** `float(val)` on a usable cell: a number is kept, text is parsed or raises. */
  function ToFloat(c: Cell): (r: Find)
    ensures c.Num? ==> r == Value(Some(c.r))
    ensures r != Value(None)
  {
    match c
    case Num(x) => Value(Some(x))
    case Str(s) => (match ParseFloat(s) case None => Unparsable case Some(x) => Value(Some(x)))
    case _ => Unparsable
  }

  /**
   * `find_val`: the first usable candidate decides, a reported 0.0 included; `None` when no
   * candidate is usable.
   */
  function FindVal(row: map<string, Cell>, cands: seq<string>): (r: Find)
    ensures r == Value(None) <==> forall i | 0 <= i < |cands| :: !Usable(row, cands[i])
    ensures r != Value(None) ==>
      exists i | 0 <= i < |cands| ::
        Usable(row, cands[i]) && (forall j | 0 <= j < i :: !Usable(row, cands[j])) && r == ToFloat(row[cands[i]])
    decreases |cands|
  {
    if cands == [] then Value(None)
    else if Usable(row, cands[0]) then ToFloat(row[cands[0]])
    else
      var r := FindVal(row, cands[1..]);
      assert forall i | 1 <= i < |cands| :: cands[i] == cands[1..][i - 1];
      r
  }

  /** The loop of `find_val`, returning at the first usable candidate. */
  method FindValue(row: map<string, Cell>, cands: seq<string>) returns (found: Find)
    ensures found == FindVal(row, cands)
  {
    for i := 0 to |cands|
      invariant FindVal(row, cands) == FindVal(row, cands[i..])
    {
      assert cands[i..][1..] == cands[i + 1..];
      var cand := cands[i];
      if cand in row {
        var val := row[cand];
        if !IsNa(val) && val != Str("") {
          return ToFloat(val);
        }
      }
    }
    return Value(None);
  }

  /** `if data.get('net_income') is None: data['net_income'] = data.get('net_income_parent')`. */
  function NetIncomeFallback(data: map<string, Option<real>>): (r: map<string, Option<real>>)
    ensures r.Keys == data.Keys + {"net_income"}
    ensures forall k | k in data && k != "net_income" :: r[k] == data[k]
  {
    if "net_income" in data && data["net_income"].Some? then data
    else data["net_income" := if "net_income_parent" in data then data["net_income_parent"] else None]
  }

  /** Every field's `find_val`, before the fallback. */
  function Found(fields: map<string, seq<string>>, row: map<string, Cell>): (r: map<string, Option<real>>)
    requires forall f | f in fields :: FindVal(row, fields[f]).Value?
    ensures r.Keys == fields.Keys
  {
    map f | f in fields :: FindVal(row, fields[f]).v
  }

  /** The `data` dict of one row under a field mapping; `None` when a `float(val)` raises. */
  function DataWith(fields: map<string, seq<string>>, row: map<string, Cell>): (r: Option<map<string, Option<real>>>)
    ensures r.Some? <==> forall f | f in fields :: FindVal(row, fields[f]).Value?
  {
    if forall f | f in fields :: FindVal(row, fields[f]).Value? then Some(NetIncomeFallback(Found(fields, row)))
    else None
  }

  /**
   * Under a mapping that has both net_income fields, the record has exactly the mapped
   * fields, each the first usable candidate's value, except that a missing net_income takes
   * net_income_parent's.
   */
  lemma DataWithSpec(fields: map<string, seq<string>>, row: map<string, Cell>)
    requires DataWith(fields, row).Some? && "net_income" in fields && "net_income_parent" in fields
    ensures DataWith(fields, row).value.Keys == fields.Keys
    ensures forall f | f in fields && f != "net_income" :: DataWith(fields, row).value[f] == FindVal(row, fields[f]).v
    ensures DataWith(fields, row).value["net_income"] ==
      if FindVal(row, fields["net_income"]).v.Some? then FindVal(row, fields["net_income"]).v
      else FindVal(row, fields["net_income_parent"]).v
  {
  }

  lemma NetIncomeFields()
    ensures "net_income" in FieldMap && FieldMap["net_income"] == NetIncomeLabels
    ensures "net_income_parent" in FieldMap && FieldMap["net_income_parent"] == NetIncomeParentLabels
  {
  }

  /** A JSON value of `json.dumps` after NaN has become `None`. */
  function JsonOf(c: Cell): JsonValue {
    match c
    case Null => JNull
    case NaN => JNull
    case Num(x) => JNum(x)
    case Str(s) => JStr(s)
  }

  /** raw_data of one row: every column label, NA cells as null. */
  function RawOf(row: map<string, Cell>): (r: map<string, JsonValue>)
    ensures r.Keys == row.Keys
    ensures forall c | c in row :: (r[c] == JNull <==> IsNa(row[c]))
    ensures forall c | c in row && row[c].Num? :: r[c] == JNum(row[c].r)
  {
    map c | c in row :: JsonOf(row[c])
  }

  /** `raw_dict = row.to_dict()`, its NaN values replaced by `None` in place, then dumped. */
  method RawJson(row: map<string, Cell>) returns (raw: map<string, JsonValue>)
    ensures raw == RawOf(row)
  {
    var rawDict := NullifyNaN(row);
    raw := map c | c in rawDict :: JsonOf(rawDict[c]);
  }

  /**
   * The loop `for db_field in field_map.keys(): data[db_field] = find_val(db_field)` and the
   * net_income fallback; `None` when a `find_val` raises.
   */
  method BuildData(fields: map<string, seq<string>>, row: map<string, Cell>) returns (data: Option<map<string, Option<real>>>)
    ensures data == DataWith(fields, row)
  {
    var todo := fields.Keys;
    var filled: map<string, Option<real>> := map[];
    while todo != {}
      invariant todo <= fields.Keys
      invariant filled.Keys == fields.Keys - todo
      invariant forall f | f in filled :: FindVal(row, fields[f]) == Value(filled[f])
      decreases todo
    {
      var f :| f in todo;
      var found := FindValue(row, fields[f]);
      if found.Unparsable? {
        return None;
      }
      filled := filled[f := found.v];
      todo := todo - {f};
    }
    assert filled == Found(fields, row);
    return Some(NetIncomeFallback(filled));
  }

  /** The `save_to_db` call for one date: report type 'A', market 'HK', currency 'HKD'. */
  function DateRequest(stock: string, d: Date, data: map<string, Option<real>>, raw: map<string, JsonValue>): SaveRequest
    requires ValidDate(d)
  {
    SaveRequest(stock, IsoString(d), "A", ToCells(data), "HK", "HKD", Some(raw))
  }

  /** The save one date's row produces; `None` when one of its `float(val)` raises. */
  function SaveOf(stock: string, fields: map<string, seq<string>>, f: Frame, d: Date): Option<SaveRequest>
    requires ValidDate(d)
  {
    match DataWith(fields, RowOf(f, d))
    case None => None
    case Some(data) => Some(DateRequest(stock, d, data, RawOf(RowOf(f, d))))
  }

  /** The saves made for a run of dates, and whether a `float(val)` raised and ended it. */
  datatype Run = Run(saves: seq<SaveRequest>, raised: bool)

  /** What each date's pass produces, date by date. */
  function Outcomes(stock: string, fields: map<string, seq<string>>, f: Frame, dates: seq<Date>): (r: seq<Option<SaveRequest>>)
    requires forall d | d in dates :: ValidDate(d)
    ensures |r| == |dates|
  {
    seq(|dates|, i requires 0 <= i < |dates| => SaveOf(stock, fields, f, dates[i]))
  }

  /** The loop over the passes' outcomes: saves accumulate until the first pass that raises. */
  function RunOver(outcomes: seq<Option<SaveRequest>>): Run
    decreases |outcomes|
  {
    if outcomes == [] then Run([], false)
    else
      var before := RunOver(outcomes[..|outcomes| - 1]);
      if before.raised then before
      else
        match outcomes[|outcomes| - 1]
        case None => Run(before.saves, true)
        case Some(req) => Run(before.saves + [req], false)
  }

  function RunOf(stock: string, fields: map<string, seq<string>>, f: Frame, dates: seq<Date>): Run
    requires forall d | d in dates :: ValidDate(d)
  {
    RunOver(Outcomes(stock, fields, f, dates))
  }

  /** One more pass of a run that has not raised. */
  lemma RunStep(outcomes: seq<Option<SaveRequest>>, i: nat)
    requires i < |outcomes| && !RunOver(outcomes[..i]).raised
    ensures RunOver(outcomes[..i + 1]) ==
      match outcomes[i]
      case None => Run(RunOver(outcomes[..i]).saves, true)
      case Some(req) => Run(RunOver(outcomes[..i]).saves + [req], false)
  {
    assert outcomes[..i + 1][..i] == outcomes[..i];
  }

  /** Once a pass has raised, the later passes add nothing. */
  lemma {:induction false} RaisedIsFinal(outcomes: seq<Option<SaveRequest>>, n: nat)
    requires n <= |outcomes| && RunOver(outcomes[..n]).raised
    ensures RunOver(outcomes) == RunOver(outcomes[..n])
    decreases |outcomes|
  {
    if n < |outcomes| {
      var m := |outcomes| - 1;
      assert outcomes[..m][..n] == outcomes[..n];
      RaisedIsFinal(outcomes[..m], n);
    } else {
      assert outcomes[..n] == outcomes;
    }
  }

  /** The saves of a run are the outcomes before the first that raised, in order. */
  lemma {:induction false} RunOverSaves(outcomes: seq<Option<SaveRequest>>)
    ensures var run := RunOver(outcomes);
      |run.saves| <= |outcomes|
      && (run.raised <==> |run.saves| < |outcomes|)
      && (run.raised ==> outcomes[|run.saves|].None?)
      && forall i | 0 <= i < |run.saves| :: outcomes[i] == Some(run.saves[i])
    decreases |outcomes|
  {
    if outcomes != [] {
      var m := |outcomes| - 1;
      var prefix := outcomes[..m];
      RunOverSaves(prefix);
      var before := RunOver(prefix);
      assert forall i | 0 <= i < m :: prefix[i] == outcomes[i];
    }
  }

  /**
   * The dates are saved in order until the first one whose row does not convert: save `i`
   * is date `i`'s record with report type 'A', market 'HK', currency 'HKD' and the row as
   * raw_data; the run raised exactly when it stopped short of the last date.
   */
  lemma RunSaves(stock: string, fields: map<string, seq<string>>, f: Frame, dates: seq<Date>)
    requires forall d | d in dates :: ValidDate(d)
    ensures var run := RunOf(stock, fields, f, dates);
      |run.saves| <= |dates|
      && (run.raised <==> |run.saves| < |dates|)
      && (run.raised ==> SaveOf(stock, fields, f, dates[|run.saves|]).None?)
      && forall i | 0 <= i < |run.saves| :: SaveOf(stock, fields, f, dates[i]) == Some(run.saves[i])
  {
    var outcomes := Outcomes(stock, fields, f, dates);
    RunOverSaves(outcomes);
    assert forall i | 0 <= i < |dates| :: outcomes[i] == SaveOf(stock, fields, f, dates[i]);
  }

  /**
   * The loop raises out of `_process_and_save` when a row does not convert, or, on a table
   * without is_locked, as soon as there is a date at all: the first date either fails to
   * convert or reaches `save_to_db`, whose lock query raises.
   */
  predicate RunRaises(schema: Schema, stock: string, fields: map<string, seq<string>>, f: Frame, dates: seq<Date>)
    requires forall d | d in dates :: ValidDate(d)
  {
    RunOf(stock, fields, f, dates).raised || (!HasLockColumn(schema) && dates != [])
  }

  /**
   * `_process_and_save`: each date of the merged frame in order, its record built and saved
   * with the row as raw_data. `raised` reports the exception that ends the loop (a
   * `ValueError`, or the lock query of `save_to_db`); the saves made before it stay, each
   * `save_to_db` having committed its own.
   */
  method ProcessAndSave(t: Table, stock: string, f: Frame) returns (raised: bool)
    requires t.Valid() && t.schema.unique == RawUnique
    requires forall d | d in f.cells :: ValidDate(d)
    modifies t
    ensures t.Valid()
    ensures raised == RunRaises(t.schema, stock, FieldMap, f, SortedDates(f.cells.Keys))
    ensures t.rows == ApplySaves(t.schema, old(t.rows), RunOf(stock, FieldMap, f, SortedDates(f.cells.Keys)).saves)
  {
    raised := SaveDates(t, stock, FieldMap, f, SortedDates(f.cells.Keys));
  }

  /** The loop of `_process_and_save` over the given dates, under the given field mapping. */
  method SaveDates(t: Table, stock: string, fields: map<string, seq<string>>, f: Frame, dates: seq<Date>) returns (raised: bool)
    requires t.Valid() && t.schema.unique == RawUnique
    requires forall d | d in dates :: ValidDate(d)
    modifies t
    ensures t.Valid()
    ensures raised == RunRaises(t.schema, stock, fields, f, dates)
    ensures t.rows == ApplySaves(t.schema, old(t.rows), RunOf(stock, fields, f, dates).saves)
  {
    ghost var outcomes := Outcomes(stock, fields, f, dates);
    ghost var saves: seq<SaveRequest> := [];
    for i := 0 to |dates|
      invariant t.Valid()
      invariant !HasLockColumn(t.schema) ==> i == 0
      invariant RunOver(outcomes[..i]) == Run(saves, false)
      invariant t.rows == ApplySaves(t.schema, old(t.rows), saves)
    {
      ghost var before := t.rows;
      var passRaised := SavePass(t, stock, fields, f, dates[i]);
      RunStep(outcomes, i);
      if passRaised {
        if outcomes[i].None? {
          RaisedIsFinal(outcomes, i + 1);
        } else {
          NoLockColumnRun(t.schema, old(t.rows), stock, fields, f, dates, saves);
        }
        return true;
      }
      AppendSave(t.schema, old(t.rows), saves, outcomes[i].value);
      saves := saves + [outcomes[i].value];
    }
    assert outcomes[..|dates|] == outcomes;
    return false;
  }

  /**
   * One pass of the loop: build the date's record and raw JSON, then `save_to_db`. It
   * raises when a value does not convert, or when the save's lock query raises.
   */
  method SavePass(t: Table, stock: string, fields: map<string, seq<string>>, f: Frame, d: Date) returns (raised: bool)
    requires t.Valid() && t.schema.unique == RawUnique && ValidDate(d)
    modifies t
    ensures t.Valid()
    ensures raised <==> SaveOf(stock, fields, f, d).None? || !HasLockColumn(t.schema)
    ensures t.rows == match SaveOf(stock, fields, f, d)
      case None => old(t.rows)
      case Some(req) => SaveEffect(t.schema, old(t.rows), req)
  {
    var row := RowOf(f, d);
    var data := BuildData(fields, row);
    if data.None? {
      return true;
    }
    var raw := RawJson(row);
    var req := SaveRequest(stock, IsoString(d), "A", ToCells(data.value), "HK", "HKD", Some(raw));
    assert SaveOf(stock, fields, f, d) == Some(req);
    var _, outcome := SaveToDb(t, req);
    raised := outcome.LockQueryRaised?;
  }

  /**
   * On a table without is_locked a run over some dates raises, and neither the run's saves
   * nor any other saves change the table.
   */
  lemma NoLockColumnRun(schema: Schema, rows: map<Key, Row>, stock: string, fields: map<string, seq<string>>,
                        f: Frame, dates: seq<Date>, saves: seq<SaveRequest>)
    requires !HasLockColumn(schema) && dates != [] && forall d | d in dates :: ValidDate(d)
    ensures RunRaises(schema, stock, fields, f, dates)
    ensures ApplySaves(schema, rows, RunOf(stock, fields, f, dates).saves) == rows
    ensures ApplySaves(schema, rows, saves) == rows
  {
    NoLockColumnNoWrites(schema, rows, RunOf(stock, fields, f, dates).saves);
    NoLockColumnNoWrites(schema, rows, saves);
  }

  /** Applying one more save after a run. */
  lemma AppendSave(schema: Schema, rows: map<Key, Row>, reqs: seq<SaveRequest>, req: SaveRequest)
    ensures ApplySaves(schema, rows, reqs + [req]) == SaveEffect(schema, ApplySaves(schema, rows, reqs), req)
  {
    assert (reqs + [req])[..|reqs|] == reqs;
  }

  /** The run `fetch_financial_data` makes on the merged statements. */
  function FetchRun(stock: string, income: seq<Entry>, balance: seq<Entry>, cash: seq<Entry>): Run
    requires forall d | d in DatesOf(income + balance + cash) :: ValidDate(d)
  {
    var f := Merged(income, balance, cash);
    MergedDates(income, balance, cash);
    RunOf(stock, FieldMap, f, SortedDates(f.cells.Keys))
  }

  /**
   * `fetch_financial_data`: a statement whose download raised arrives empty. False with the
   * table unchanged when the income and balance statements are both empty (an empty cash
   * statement alone is allowed); False when a row does not convert, the earlier dates
   * saved, and False when there is a date to save on a table without is_locked; True
   * otherwise.
   */
  method FetchFinancialData(t: Table, stock: string, income: seq<Entry>, balance: seq<Entry>, cash: seq<Entry>)
    returns (ok: bool)
    requires t.Valid() && t.schema.unique == RawUnique
    requires forall d | d in DatesOf(income + balance + cash) :: ValidDate(d)
    modifies t
    ensures t.Valid()
    ensures ok <==> ((income != [] || balance != []) && !FetchRun(stock, income, balance, cash).raised
                     && (HasLockColumn(t.schema) || Merged(income, balance, cash).cells.Keys == {}))
    ensures income == [] && balance == [] ==> t.rows == old(t.rows)
    ensures income != [] || balance != [] ==>
      t.rows == ApplySaves(t.schema, old(t.rows), FetchRun(stock, income, balance, cash).saves)
  {
    if income == [] && balance == [] {
      return false;
    }
    var merged := Merged(income, balance, cash);
    MergedDates(income, balance, cash);
    var raised := ProcessAndSave(t, stock, merged);
    return !raised;
  }

  /** The mapped fields never clash with the columns `save_to_db` supplies itself. */
  lemma FieldsAreNotFixed()
    ensures forall k | k in FieldMap :: k !in FixedColumns && k != "raw_data"
  {
    KeyColumnsNotFields();
    OtherColumnsNotFields();
  }

  lemma KeyColumnsNotFields()
    ensures "stock_code" !in FieldMap && "report_period" !in FieldMap && "report_type" !in FieldMap
  {
  }

  lemma OtherColumnsNotFields()
    ensures "market" !in FieldMap && "currency" !in FieldMap && "raw_data" !in FieldMap
  {
  }

  /**
   * Under a mapping whose fields are none of the columns `save_to_db` supplies itself, as
   * `field_map`'s are, every save of a run is well formed, so what it leaves in its row is
   * as `save_to_db` promises.
   */
  lemma RunSavesWellFormed(stock: string, fields: map<string, seq<string>>, f: Frame, dates: seq<Date>)
    requires forall d | d in dates :: ValidDate(d)
    requires forall k | k in fields :: k !in FixedColumns && k != "raw_data"
    ensures forall i | 0 <= i < |RunOf(stock, fields, f, dates).saves| :: WellFormed(RunOf(stock, fields, f, dates).saves[i])
  {
    RunSaves(stock, fields, f, dates);
    var run := RunOf(stock, fields, f, dates);
    forall i | 0 <= i < |run.saves|
      ensures WellFormed(run.saves[i])
    {
      assert SaveOf(stock, fields, f, dates[i]) == Some(run.saves[i]);
      var data := DataWith(fields, RowOf(f, dates[i])).value;
      assert run.saves[i].data.Keys == data.Keys == fields.Keys + {"net_income"};
    }
  }
}
