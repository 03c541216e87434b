/**
 * `FinancialCalculator.calculate_indicators`: the derived ratios of one stock, computed from
 * its raw records and upserted into financial_indicators_derived, one row per raw period, in
 * a single transaction.
 */
module Calculator {
  import opened Wrappers
  import opened Ordering
  import opened Cells
  import opened Dates
  import opened Store

  function Abs(x: real): real { if x < 0.0 then -x else x }

  /**
   * A ratio guarded on its denominator, as the `df.apply` lambdas write it:
   * `num / den * scale if den else None`. A NULL (NaN) numerator or denominator makes the
   * result NaN, which is stored as NULL.
   */
  function Ratio(num: Option<real>, den: Option<real>, scale: real): (r: Option<real>)
    ensures r.Some? <==> num.Some? && Truthy(den)
  {
    if num.Some? && Truthy(den) then Some(num.value / den.value * scale) else None
  }

  /** A present ratio times its denominator is the numerator times the scale. */
  lemma RatioScales(num: Option<real>, den: Option<real>, scale: real)
    ensures Ratio(num, den, scale).Some? ==> Ratio(num, den, scale).value * den.value == num.value * scale
  {
    if Ratio(num, den, scale).Some? {
      QuotientTimes(num.value, den.value, scale);
    }
  }

  lemma QuotientTimes(n: real, d: real, s: real)
    requires d != 0.0
    ensures n / d * s * d == n * s
  {
    assert n / d * d == n;
  }

  /** `cfo_net - capex`: NaN, so NULL, when either is NULL. */
  function Fcf(cfo: Option<real>, capex: Option<real>): (r: Option<real>)
    ensures r.Some? <==> cfo.Some? && capex.Some?
    ensures r.Some? ==> r.value + capex.value == cfo.value
  {
    if cfo.Some? && capex.Some? then Some(cfo.value - capex.value) else None
  }

  /**
   * Year-on-year growth in percent, `(x - last) / abs(last) * 100`; NULL without a value
   * for last year. A zero base is NULL here (see README).
   */
  function Yoy(x: Option<real>, last: Option<real>): (r: Option<real>)
    ensures r.Some? <==> x.Some? && last.Some? && last.value != 0.0
  {
    if x.Some? && last.Some? && last.value != 0.0 then Some((x.value - last.value) / Abs(last.value) * 100.0)
    else None
  }

  /** Present growth times the size of last year's figure is the change in percent. */
  lemma YoyScales(x: Option<real>, last: Option<real>)
    ensures Yoy(x, last).Some? ==> Yoy(x, last).value * Abs(last.value) == (x.value - last.value) * 100.0
  {
    if Yoy(x, last).Some? {
      QuotientTimes(x.value - last.value, Abs(last.value), 100.0);
    }
  }

  /** Growth is positive exactly when the figure rose, whatever the sign of last year's. */
  lemma YoyPositiveIffRose(x: real, last: real)
    requires last != 0.0
    ensures Yoy(Some(x), Some(last)).value > 0.0 <==> x > last
  {
    YoyScales(Some(x), Some(last));
    var g := Yoy(Some(x), Some(last)).value;
    var a := Abs(last);
    assert g * a == (x - last) * 100.0;
    if g > 0.0 {
      assert g * a > 0.0;
    } else {
      assert g * a <= 0.0;
    }
  }

  /** The example of the gross margin: revenue 200 and gross profit 80 give 40. */
  lemma GrossMarginExample()
    ensures Ratio(Some(80.0), Some(200.0), 100.0) == Some(40.0)
  {
  }

  /** A stored number of the raw row, `None` for NULL. */
  function Value(row: Row, column: string): Option<real> {
    Numeric(Get(row, column))
  }

  /** A computed value as bound to the INSERT: NaN and `None` become NULL. */
  function Stored(x: Option<real>): SqlValue {
    if x.Some? then Real(x.value) else SqlNull
  }

  /** A value of last year's row, `None` when there is no such row (the merge's NaN). */
  function LastValue(last: Option<Row>, column: string): Option<real> {
    if last.Some? then Value(last.value, column) else None
  }

  /** The twelve columns `calculate_indicators` writes. */
  const DerivedColumns: set<string> := {
    "stock_code", "report_period", "gross_margin", "net_margin", "roe", "roa", "revenue_yoy",
    "net_profit_yoy", "debt_to_asset", "inventory_turnover_days", "fcf", "cfo_to_net_income"}

  /**
   * The value of column `c` in the `data` dict of one raw period dated `d`: its ratios, and
   * its growth against last year's raw row when there is one.
   */
  function IndicatorValue(stock: string, d: Date, row: Row, last: Option<Row>, c: string): SqlValue
    requires ValidDate(d)
  {
    if c == "stock_code" then Text(stock)
    else if c == "report_period" then Text(IsoString(d))
    else if c == "gross_margin" then Stored(Ratio(Value(row, "gross_profit"), Value(row, "revenue"), 100.0))
    else if c == "net_margin" then Stored(Ratio(Value(row, "net_income"), Value(row, "revenue"), 100.0))
    else if c == "roe" then Stored(Ratio(Value(row, "net_income_parent"), Value(row, "total_equity"), 100.0))
    else if c == "roa" then Stored(Ratio(Value(row, "net_income"), Value(row, "total_assets"), 100.0))
    else if c == "revenue_yoy" then Stored(Yoy(Value(row, "revenue"), LastValue(last, "revenue")))
    else if c == "net_profit_yoy" then Stored(Yoy(Value(row, "net_income_parent"), LastValue(last, "net_income_parent")))
    else if c == "debt_to_asset" then Stored(Ratio(Value(row, "total_liabilities"), Value(row, "total_assets"), 100.0))
    else if c == "inventory_turnover_days" then Stored(Ratio(Value(row, "inventory"), Value(row, "cost_of_revenue"), 365.0))
    else if c == "fcf" then Stored(Fcf(Value(row, "cfo_net"), Value(row, "capex")))
    else Stored(Ratio(Value(row, "cfo_net"), Value(row, "net_income"), 1.0))
  }

  /** The `data` dict of one raw period: the twelve columns and nothing else. */
  function IndicatorRow(stock: string, d: Date, row: Row, last: Option<Row>): (r: Row)
    requires ValidDate(d)
    ensures r.Keys == DerivedColumns
  {
    map c | c in DerivedColumns :: IndicatorValue(stock, d, row, last, c)
  }

  /** Without a row a year earlier both growth columns are NULL. */
  lemma YoyNeedsLastYear(stock: string, d: Date, row: Row)
    requires ValidDate(d)
    ensures IndicatorRow(stock, d, row, None)["revenue_yoy"] == SqlNull
    ensures IndicatorRow(stock, d, row, None)["net_profit_yoy"] == SqlNull
  {
    assert "revenue_yoy" in DerivedColumns && "net_profit_yoy" in DerivedColumns;
  }

  /**
   * The stored gross margin is a number exactly when gross profit is stored and revenue is
   * stored and non-zero, and then it is gross profit per 100 of revenue.
   */
  lemma GrossMarginStored(stock: string, d: Date, row: Row, last: Option<Row>)
    requires ValidDate(d)
    ensures var g := IndicatorRow(stock, d, row, last)["gross_margin"];
      (g.Real? <==> Value(row, "gross_profit").Some? && Value(row, "revenue").Some? && Value(row, "revenue").value != 0.0) &&
      (g.SqlNull? <==> !g.Real?) &&
      (g.Real? ==> g.r * Value(row, "revenue").value == Value(row, "gross_profit").value * 100.0)
  {
    GrossMarginCell(stock, d, row, last);
    StoredPercent(Value(row, "gross_profit"), Value(row, "revenue"));
  }

  /** A stored percentage: a number exactly when the denominator is present and non-zero. */
  lemma StoredPercent(num: Option<real>, den: Option<real>)
    ensures var g := Stored(Ratio(num, den, 100.0));
      (g.Real? <==> num.Some? && den.Some? && den.value != 0.0) &&
      (g.SqlNull? <==> !g.Real?) &&
      (g.Real? ==> g.r * den.value == num.value * 100.0)
  {
    RatioScales(num, den, 100.0);
  }

  /** The gross_margin cell holds the guarded ratio of gross profit to revenue. */
  lemma GrossMarginCell(stock: string, d: Date, row: Row, last: Option<Row>)
    requires ValidDate(d)
    ensures IndicatorRow(stock, d, row, last)["gross_margin"] == Stored(Ratio(Value(row, "gross_profit"), Value(row, "revenue"), 100.0))
  {
    assert "gross_margin" in DerivedColumns;
  }

  /** current_ratio and net_profit_ttm are computed by the source but never written. */
  lemma UnstoredColumns()
    ensures "current_ratio" !in DerivedColumns && "net_profit_ttm" !in DerivedColumns
  {
  }

  /** The row carries its own (stock_code, report_period) key. */
  lemma IndicatorRowKey(schema: Schema, stock: string, d: Date, row: Row, last: Option<Row>)
    requires ValidDate(d) && schema.unique == DerivedUnique
    ensures KeyMatches(schema, [stock, IsoString(d)], IndicatorRow(stock, d, row, last))
  {
    var r := IndicatorRow(stock, d, row, last);
    assert "stock_code" in DerivedColumns && "report_period" in DerivedColumns;
    assert Get(r, "stock_code") == Text(stock);
    assert Get(r, "report_period") == Text(IsoString(d));
  }

  /** financial_indicators_derived is UNIQUE on (stock_code, report_period). */
  const DerivedUnique: seq<string> := ["stock_code", "report_period"]

  /**
   * The row of the same stock dated exactly one `DateOffset(years=1)` earlier, as the left
   * merge on the shifted index finds it. Two earlier dates land on 28 February of a common
   * year; the model takes the 28 February one.
   */
  function LastYear(byDate: map<Date, Row>, d: Date): (r: Option<Row>)
    ensures r.Some? ==>
      exists p | p in byDate :: ValidDate(p) && p.year < 9999 && OneYearLater(p) == d && byDate[p] == r.value
    ensures r.None? ==>
      forall p | p in byDate && ValidDate(p) && p.year < 9999 :: OneYearLater(p) != d
  {
    var same := Date(d.year - 1, d.month, d.day);
    var leap := Date(d.year - 1, 2, 29);
    if same in byDate && ValidDate(same) && same.year < 9999 && OneYearLater(same) == d then Some(byDate[same])
    else if d.month == 2 && d.day == 28 && leap in byDate && ValidDate(leap) && leap.year < 9999 then
      Some(byDate[leap])
    else None
  }

  /** One raw period, parsed: its date and its row. */
  datatype Dated = Dated(date: Date, row: Row)

  /**
   * The dates a nanosecond `Timestamp` can hold at midnight: 22 September 1677 through
   * 11 April 2262.
   */
  predicate InTimestampRange(d: Date) {
    DateLe(Date(1677, 9, 22), d) && DateLe(d, Date(2262, 4, 11))
  }

  /**
   * `pd.to_datetime` on one label: a `YYYY-MM-DD` date inside the `Timestamp` range;
   * `None` for any other text, and for a date outside the range (`OutOfBoundsDatetime`).
   */
  function ToDatetime(s: string): Option<Date> {
    match ParseIso(s)
    case Some(d) => if InTimestampRange(d) then Some(d) else None
    case None => None
  }

  /** The label of every date in the `Timestamp` range converts back to that date. */
  lemma ToDatetimeRoundTrip(d: Date)
    requires ValidDate(d)
    ensures ToDatetime(IsoString(d)) == if InTimestampRange(d) then Some(d) else None
  {
    IsoRoundTrip(d);
  }

  /** `pd.to_datetime` on the ordered period labels; `None` when one does not convert. */
  function ParseAll(rows: map<Key, Row>, stock: string, periods: seq<string>): (r: Option<seq<Dated>>)
    requires forall p | p in periods :: [stock, p] in rows
    ensures r.Some? ==> |r.value| == |periods| && forall i | 0 <= i < |periods| ::
      ValidDate(r.value[i].date) && ToDatetime(periods[i]) == Some(r.value[i].date) && r.value[i].row == rows[[stock, periods[i]]]
    ensures r.None? <==> exists i | 0 <= i < |periods| :: ToDatetime(periods[i]).None?
    decreases |periods|
  {
    if periods == [] then Some([])
    else
      var n := |periods| - 1;
      match ParseAll(rows, stock, periods[..n])
      case None => None
      case Some(before) =>
        match ToDatetime(periods[n])
        case None => None
        case Some(d) => Some(before + [Dated(d, rows[[stock, periods[n]]])])
  }

  /** The parsed frame indexed by date (a later period wins a shared date). */
  function ByDate(dated: seq<Dated>): (r: map<Date, Row>)
    ensures r.Keys == set i | 0 <= i < |dated| :: dated[i].date
    decreases |dated|
  {
    if dated == [] then map[]
    else
      var n := |dated| - 1;
      ByDate(dated[..n])[dated[n].date := dated[n].row]
  }

  /** One INSERT OR REPLACE of the loop: the key and the supplied columns. */
  datatype Write = Write(key: Key, row: Row)

  /** The rows of `indicators`, one per raw period in order, each with last year's row. */
  function Writes(stock: string, dated: seq<Dated>, byDate: map<Date, Row>): (r: seq<Write>)
    requires forall i | 0 <= i < |dated| :: ValidDate(dated[i].date)
    ensures |r| == |dated|
    ensures forall i | 0 <= i < |dated| ::
      r[i] == Write([stock, IsoString(dated[i].date)], IndicatorRow(stock, dated[i].date, dated[i].row, LastYear(byDate, dated[i].date)))
  {
    seq(|dated|, i requires 0 <= i < |dated| =>
      Write([stock, IsoString(dated[i].date)], IndicatorRow(stock, dated[i].date, dated[i].row, LastYear(byDate, dated[i].date))))
  }

  /** The table after the INSERTs in order; `None` once one raises. */
  function Upserts(schema: Schema, rows: map<Key, Row>, writes: seq<Write>): Option<map<Key, Row>>
    decreases |writes|
  {
    if writes == [] then Some(rows)
    else
      var n := |writes| - 1;
      match Upserts(schema, rows, writes[..n])
      case None => None
      case Some(before) =>
        if Accepts(schema, writes[n].row) then Some(Upsert(schema, before, writes[n].key, writes[n].row)) else None
  }

  /** What a call does: False on no raw data, `None` once computed, or an exception. */
  datatype Calc = NoRawData | Computed(rows: map<Key, Row>) | Raised

  /** A stored period of the stock is filed under (stock, period). */
  lemma StockPeriodKey(raw: map<Key, Row>, stock: string, p: string)
    requires p in StockPeriods(raw, stock)
    ensures [stock, p] in raw
  {
    var k :| k in raw && |k| == 2 && k[0] == stock && k[1] == p;
    assert k == [stock, p];
  }

  /** The raw periods of the stock, `ORDER BY report_period ASC`. */
  function OrderedPeriods(raw: map<Key, Row>, stock: string): (r: seq<string>)
    ensures forall i | 0 <= i < |r| :: [stock, r[i]] in raw
    ensures forall p :: p in r <==> p in StockPeriods(raw, stock)
  {
    var r := SortedStrings(StockPeriods(raw, stock));
    forall i | 0 <= i < |r|
      ensures [stock, r[i]] in raw
    {
      StockPeriodKey(raw, stock, r[i]);
    }
    r
  }

  /** The outcome of `calculate_indicators` on the raw table and the derived table. */
  function CalcOf(raw: map<Key, Row>, schema: Schema, derived: map<Key, Row>, stock: string): Calc {
    var periods := OrderedPeriods(raw, stock);
    if periods == [] then NoRawData
    else
      match ParseAll(raw, stock, periods)
      case None => Raised
      case Some(dated) =>
        match Upserts(schema, derived, Writes(stock, dated, ByDate(dated)))
        case None => Raised
        case Some(rows) => Computed(rows)
  }

  /** Extending the upserts by one INSERT applies it. */
  lemma UpsertsStep(schema: Schema, rows: map<Key, Row>, writes: seq<Write>, i: nat)
    requires i < |writes| && Upserts(schema, rows, writes[..i]).Some?
    ensures Upserts(schema, rows, writes[..i + 1]) ==
      if Accepts(schema, writes[i].row)
      then Some(Upsert(schema, Upserts(schema, rows, writes[..i]).value, writes[i].key, writes[i].row))
      else None
  {
    assert writes[..i + 1][..i] == writes[..i];
  }

  /** Once an INSERT has raised, the rest of the loop never runs. */
  lemma {:induction false} UpsertRaiseIsFinal(schema: Schema, rows: map<Key, Row>, writes: seq<Write>, n: nat)
    requires n <= |writes| && Upserts(schema, rows, writes[..n]).None?
    ensures Upserts(schema, rows, writes).None?
    decreases |writes|
  {
    if n < |writes| {
      var m := |writes| - 1;
      assert writes[..m][..n] == writes[..n];
      UpsertRaiseIsFinal(schema, rows, writes[..m], n);
    } else {
      assert writes[..n] == writes;
    }
  }

  /**
   * `pd.read_sql` of the stock's raw rows and `pd.to_datetime` of their periods: the parsed
   * periods in order, or `None` when a label is not a date.
   */
  method ReadRaw(raw: Table, stock: string) returns (dated: Option<seq<Dated>>)
    ensures dated == ParseAll(raw.rows, stock, OrderedPeriods(raw.rows, stock))
  {
    dated := ParsePeriods(raw.rows, stock, OrderedPeriods(raw.rows, stock));
  }

  /** The `to_datetime` pass over the given periods, in order. */
  method ParsePeriods(rows: map<Key, Row>, stock: string, periods: seq<string>) returns (dated: Option<seq<Dated>>)
    requires forall p | p in periods :: [stock, p] in rows
    ensures dated == ParseAll(rows, stock, periods)
  {
    var parsed: seq<Dated> := [];
    for i := 0 to |periods|
      invariant ParseAll(rows, stock, periods[..i]) == Some(parsed)
    {
      ParseAllStep(rows, stock, periods, i);
      var d := ToDatetime(periods[i]);
      if d.None? {
        ParseFailureIsFinal(rows, stock, periods, i + 1);
        return None;
      }
      parsed := parsed + [Dated(d.value, rows[[stock, periods[i]]])];
    }
    assert periods[..|periods|] == periods;
    return Some(parsed);
  }

  /** One more period of a parse that has not failed. */
  lemma ParseAllStep(rows: map<Key, Row>, stock: string, periods: seq<string>, i: nat)
    requires i < |periods| && forall p | p in periods :: [stock, p] in rows
    requires ParseAll(rows, stock, periods[..i]).Some?
    ensures ParseAll(rows, stock, periods[..i + 1]) ==
      match ToDatetime(periods[i])
      case None => None
      case Some(d) => Some(ParseAll(rows, stock, periods[..i]).value + [Dated(d, rows[[stock, periods[i]]])])
  {
    assert periods[..i + 1][..i] == periods[..i];
  }

  /** Once a period fails to parse, the whole parse fails. */
  lemma ParseFailureIsFinal(rows: map<Key, Row>, stock: string, periods: seq<string>, n: nat)
    requires n <= |periods| && forall p | p in periods :: [stock, p] in rows
    requires ParseAll(rows, stock, periods[..n]).None?
    ensures ParseAll(rows, stock, periods).None?
  {
    var i :| 0 <= i < n && ToDatetime(periods[..n][i]).None?;
    assert periods[..n][i] == periods[i];
  }

  /**
   * `calculate_indicators`: False with nothing written when the stock has no raw rows;
   * otherwise every raw period's row is upserted into the derived table and committed
   * once at the end. An exception (a period that is not a date, an INSERT that fails)
   * leaves before the commit, so nothing of the call persists.
   */
  method CalculateIndicators(raw: Table, derived: Table, stock: string) returns (outcome: Calc)
    requires derived.Valid() && derived.schema.unique == DerivedUnique
    requires raw != derived
    modifies derived
    ensures derived.Valid()
    ensures outcome == CalcOf(raw.rows, derived.schema, old(derived.rows), stock)
    ensures derived.rows == if outcome.Computed? then outcome.rows else old(derived.rows)
  {
    var periods := OrderedPeriods(raw.rows, stock);
    if |periods| == 0 {
      return NoRawData;
    }
    var parsed := ReadRaw(raw, stock);
    if parsed.None? {
      return Raised;
    }
    var dated := parsed.value;
    var writes := Writes(stock, dated, ByDate(dated));
    WritesSpec(derived.schema, stock, dated, ByDate(dated));
    var ok := UpsertAll(derived, writes);
    return if ok then Computed(derived.rows) else Raised;
  }

  /**
   * The loop `for idx, row in indicators.iterrows()` and the commit after it: every INSERT in
   * order; an INSERT that raises leaves before the commit, so the table is as before.
   */
  method UpsertAll(derived: Table, writes: seq<Write>) returns (ok: bool)
    requires derived.Valid() && forall i | 0 <= i < |writes| :: KeyMatches(derived.schema, writes[i].key, writes[i].row)
    modifies derived
    ensures derived.Valid()
    ensures ok == Upserts(derived.schema, old(derived.rows), writes).Some?
    ensures derived.rows == if ok then Upserts(derived.schema, old(derived.rows), writes).value else old(derived.rows)
  {
    var snapshot := derived.rows;
    for i := 0 to |writes|
      invariant derived.Valid()
      invariant Upserts(derived.schema, snapshot, writes[..i]) == Some(derived.rows)
    {
      UpsertsStep(derived.schema, snapshot, writes, i);
      var inserted := WriteRow(derived, writes[i]);
      if !inserted {
        UpsertRaiseIsFinal(derived.schema, snapshot, writes, i + 1);
        derived.rows := snapshot;
        return false;
      }
    }
    assert writes[..|writes|] == writes;
    return true;
  }

  /** `cursor.execute` of one INSERT OR REPLACE of the loop. */
  method WriteRow(derived: Table, w: Write) returns (ok: bool)
    requires derived.Valid() && KeyMatches(derived.schema, w.key, w.row)
    modifies derived
    ensures derived.Valid()
    ensures ok == Accepts(derived.schema, w.row)
    ensures derived.rows == Upsert(derived.schema, old(derived.rows), w.key, w.row)
  {
    ok := derived.InsertOrReplace(w.key, w.row);
  }

  /** Rows of the derived table whose key no INSERT names are untouched. */
  lemma {:induction false} UpsertsTouchOnlyTheirKeys(schema: Schema, rows: map<Key, Row>, writes: seq<Write>, k: Key)
    requires k in rows && Upserts(schema, rows, writes).Some?
    requires forall i | 0 <= i < |writes| :: k != writes[i].key
    ensures k in Upserts(schema, rows, writes).value
    ensures Upserts(schema, rows, writes).value[k] == rows[k]
    decreases |writes|
  {
    if writes != [] {
      UpsertsTouchOnlyTheirKeys(schema, rows, writes[..|writes| - 1], k);
    }
  }

  /** With a table that has every column the INSERTs name, they never raise. */
  lemma {:induction false} UpsertsSucceed(schema: Schema, rows: map<Key, Row>, writes: seq<Write>)
    requires forall i | 0 <= i < |writes| :: writes[i].row.Keys <= schema.columns
    ensures Upserts(schema, rows, writes).Some?
    decreases |writes|
  {
    if writes != [] {
      UpsertsSucceed(schema, rows, writes[..|writes| - 1]);
    }
  }

  /** Every INSERT of a run names exactly the twelve columns and carries its own key. */
  lemma WritesSpec(schema: Schema, stock: string, dated: seq<Dated>, byDate: map<Date, Row>)
    requires forall i | 0 <= i < |dated| :: ValidDate(dated[i].date)
    requires schema.unique == DerivedUnique
    ensures forall i | 0 <= i < |Writes(stock, dated, byDate)| ::
      Writes(stock, dated, byDate)[i].row.Keys == DerivedColumns
      && KeyMatches(schema, Writes(stock, dated, byDate)[i].key, Writes(stock, dated, byDate)[i].row)
  {
    var writes := Writes(stock, dated, byDate);
    forall i | 0 <= i < |writes|
      ensures writes[i].row.Keys == DerivedColumns && KeyMatches(schema, writes[i].key, writes[i].row)
    {
      var d := dated[i].date;
      IndicatorRowKey(schema, stock, d, dated[i].row, LastYear(byDate, d));
    }
  }
}
