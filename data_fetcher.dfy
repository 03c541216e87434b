/**
 * `DataFetcher`: the older A-share pipeline. It maps the sina statements with the same field
 * mapping as `AShareFetcher`, but writes each record with its own inline lock check and
 * `INSERT OR REPLACE` inside one transaction, then cross-checks the ten latest periods.
 */
module DataFetcher {
  import opened Wrappers
  import opened Ordering
  import opened Cells
  import opened Dates
  import opened Store
  import opened BaseFetcher
  import opened AShare
  import opened Validator

  /** The identity columns of the inline dict; market is not among them. */
  function InlineIdentity(stock: string, d: Date): Row
    requires ValidDate(d)
  {
    map["stock_code" := Text(stock), "report_period" := Text(IsoString(d)),
        "report_type" := Text(ReportTypeOfMonth(d.month)), "currency" := Text("CNY")]
  }

  /**
   * The columns and values the inline INSERT supplies for a kept period: the record's fields
   * as floats or NULL, and the identity columns (which win, should a field share a name).
   */
  function InlineRow(stock: string, record: map<string, Option<real>>, d: Date): Row
    requires ValidDate(d)
  {
    DataRow(ToCells(record)) + InlineIdentity(stock, d)
  }

  /** The columns every inline INSERT names, whatever the period. */
  const InlineColumns: set<string> := FieldRules.Keys + {"stock_code", "report_period", "report_type", "currency"}

  lemma InlineRowColumns(stock: string, s: Sheets, period: string, d: Date)
    requires ValidDate(d)
    ensures InlineRow(stock, Record(s, period), d).Keys == InlineColumns
  {
    var record := Record(s, period);
    assert DataRow(ToCells(record)).Keys == record.Keys;
    assert record.Keys == FieldRules.Keys;
  }

  /** The lock-checked write of one dict: `None` when its lock query or its INSERT raises. */
  function InlineWrite(schema: Schema, rows: map<Key, Row>, key: Key, row: Row): Option<map<Key, Row>> {
    if !HasLockColumn(schema) then None
    else if LockedIn(rows, key) then Some(rows)
    else if Accepts(schema, row) then Some(Upsert(schema, rows, key, row))
    else None
  }

  /** One pass of the loop over a period label. */
  function InlineStep(schema: Schema, rows: map<Key, Row>, stock: string, s: Sheets, period: string): Option<map<Key, Row>> {
    match Kept(period)
    case None => Some(rows)
    case Some(d) => InlineWrite(schema, rows, [stock, IsoString(d)], InlineRow(stock, Record(s, period), d))
  }

  /** The uncommitted table after the loop over `labels`; `None` once an INSERT has raised. */
  function InlineSaves(schema: Schema, rows: map<Key, Row>, stock: string, s: Sheets, labels: seq<string>): Option<map<Key, Row>>
    decreases |labels|
  {
    if labels == [] then Some(rows)
    else
      match InlineSaves(schema, rows, stock, s, labels[..|labels| - 1])
      case None => None
      case Some(r) => InlineStep(schema, r, stock, s, labels[|labels| - 1])
  }

  /** Once an INSERT has raised, the rest of the loop never runs. */
  lemma {:induction false} RaiseIsFinal(schema: Schema, rows: map<Key, Row>, stock: string, s: Sheets, labels: seq<string>, n: nat)
    requires n <= |labels| && InlineSaves(schema, rows, stock, s, labels[..n]).None?
    ensures InlineSaves(schema, rows, stock, s, labels).None?
    decreases |labels|
  {
    if n < |labels| {
      var m := |labels| - 1;
      assert labels[..m][..n] == labels[..n];
      RaiseIsFinal(schema, rows, stock, s, labels[..m], n);
    } else {
      assert labels[..n] == labels;
    }
  }

  /** Extending the loop by one label applies that label's pass. */
  lemma InlineSavesStep(schema: Schema, rows: map<Key, Row>, stock: string, s: Sheets, labels: seq<string>, i: nat)
    requires i < |labels| && InlineSaves(schema, rows, stock, s, labels[..i]).Some?
    ensures InlineSaves(schema, rows, stock, s, labels[..i + 1]) ==
      InlineStep(schema, InlineSaves(schema, rows, stock, s, labels[..i]).value, stock, s, labels[i])
  {
    assert labels[..i + 1][..i] == labels[..i];
  }

  lemma InlineKeyMatches(schema: Schema, stock: string, record: map<string, Option<real>>, d: Date)
    requires schema.unique == RawUnique && ValidDate(d)
    ensures KeyMatches(schema, [stock, IsoString(d)], InlineRow(stock, record, d))
  {
    var row := InlineRow(stock, record, d);
    assert row["stock_code"] == Text(stock);
    assert row["report_period"] == Text(IsoString(d));
  }

  /**
   * The end of one pass of the loop: `SELECT is_locked` for the period, then, unless it is 1,
   * `INSERT OR REPLACE` of the dict. `raised` reports a lock query (on a table without
   * is_locked) or an INSERT that failed; neither statement is inside a `try`.
   */
  method WriteUnlessLocked(t: Table, key: Key, row: Row) returns (raised: bool)
    requires t.Valid() && KeyMatches(t.schema, key, row)
    modifies t
    ensures t.Valid()
    ensures raised <==> InlineWrite(t.schema, old(t.rows), key, row).None?
    ensures !raised ==> InlineWrite(t.schema, old(t.rows), key, row) == Some(t.rows)
  {
    if "is_locked" !in t.schema.columns {
      return true;
    }
    if key in t.rows && IsLocked(t.rows[key]) {
      return false;
    }
    var inserted := t.InsertOrReplace(key, row);
    raised := !inserted;
  }

  /**
   * One pass of the loop of `_process_and_save` of `DataFetcher`: skip a label that is not a
   * date from 2010 on, else build the period's dict and write it unless the period is locked.
   */
  method SavePeriod(t: Table, stock: string, s: Sheets, period: string) returns (raised: bool)
    requires t.Valid() && t.schema.unique == RawUnique
    modifies t
    ensures t.Valid()
    ensures raised <==> InlineStep(t.schema, old(t.rows), stock, s, period).None?
    ensures !raised ==> InlineStep(t.schema, old(t.rows), stock, s, period) == Some(t.rows)
  {
    var kept := Kept(period);
    if kept.None? {
      return false;
    }
    var reportDate := kept.value;
    var row := InlineRow(stock, Record(s, period), reportDate);
    InlineKeyMatches(t.schema, stock, Record(s, period), reportDate);
    raised := WriteUnlessLocked(t, [stock, IsoString(reportDate)], row);
  }

  /**
   * `_process_and_save` of `DataFetcher`. The INSERTs share one transaction, committed after
   * the loop; a lock query or an INSERT that raises leaves `_process_and_save` before the
   * commit, so none of the run's writes persist (`ok` false).
   */
  method ProcessAndSave(t: Table, stock: string, s: Sheets) returns (ok: bool)
    requires t.Valid() && t.schema.unique == RawUnique
    modifies t
    ensures t.Valid()
    ensures ok == InlineSaves(t.schema, old(t.rows), stock, s, Periods(s)).Some?
    ensures t.rows == if ok then InlineSaves(t.schema, old(t.rows), stock, s, Periods(s)).value else old(t.rows)
  {
    ok := SaveLabels(t, stock, s, Periods(s));
  }

  /** The loop of `_process_and_save` over the given period labels, inside one transaction. */
  method SaveLabels(t: Table, stock: string, s: Sheets, periods: seq<string>) returns (ok: bool)
    requires t.Valid() && t.schema.unique == RawUnique
    modifies t
    ensures t.Valid()
    ensures ok == InlineSaves(t.schema, old(t.rows), stock, s, periods).Some?
    ensures t.rows == if ok then InlineSaves(t.schema, old(t.rows), stock, s, periods).value else old(t.rows)
  {
    var snapshot := t.rows;
    var i := 0;
    while i < |periods|
      invariant 0 <= i <= |periods|
      invariant t.Valid()
      invariant forall k | k in snapshot :: KeyMatches(t.schema, k, snapshot[k])
      invariant InlineSaves(t.schema, snapshot, stock, s, periods[..i]) == Some(t.rows)
    {
      InlineSavesStep(t.schema, snapshot, stock, s, periods, i);
      var raised := SavePeriod(t, stock, s, periods[i]);
      if raised {
        // the transaction is never committed
        RaiseIsFinal(t.schema, snapshot, stock, s, periods, i + 1);
        t.rows := snapshot;
        return false;
      }
      i := i + 1;
    }
    assert periods[..i] == periods;
    ok := true;
  }

  /**
   * On a table without is_locked the run raises exactly when some label is kept: the
   * first kept label's lock query raises.
   */
  lemma {:induction false} NoLockColumnRaises(schema: Schema, rows: map<Key, Row>, stock: string, s: Sheets, labels: seq<string>)
    requires !HasLockColumn(schema)
    ensures InlineSaves(schema, rows, stock, s, labels).None? <==> exists l | l in labels :: Kept(l).Some?
    ensures InlineSaves(schema, rows, stock, s, labels).Some? ==> InlineSaves(schema, rows, stock, s, labels).value == rows
    decreases |labels|
  {
    if labels != [] {
      var m := |labels| - 1;
      NoLockColumnRaises(schema, rows, stock, s, labels[..m]);
      assert labels == labels[..m] + [labels[m]];
    }
  }

  /**
   * When the table has is_locked and every column the INSERT names, the run never raises.
   * is_locked is in none of the repository's schemas.
   */
  lemma {:induction false} NoRaiseWithFullSchema(schema: Schema, rows: map<Key, Row>, stock: string, s: Sheets, labels: seq<string>)
    requires HasLockColumn(schema) && InlineColumns <= schema.columns
    ensures InlineSaves(schema, rows, stock, s, labels).Some?
    decreases |labels|
  {
    if labels != [] {
      NoRaiseWithFullSchema(schema, rows, stock, s, labels[..|labels| - 1]);
      var last := labels[|labels| - 1];
      if Kept(last).Some? {
        InlineRowColumns(stock, s, last, Kept(last).value);
      }
    }
  }

  /** A locked row is never replaced by the inline writes. */
  lemma {:induction false} InlineKeepsLocked(schema: Schema, rows: map<Key, Row>, stock: string, s: Sheets, labels: seq<string>, k: Key)
    requires LockedIn(rows, k) && InlineSaves(schema, rows, stock, s, labels).Some?
    ensures k in InlineSaves(schema, rows, stock, s, labels).value
    ensures InlineSaves(schema, rows, stock, s, labels).value[k] == rows[k]
    decreases |labels|
  {
    if labels != [] {
      InlineKeepsLocked(schema, rows, stock, s, labels[..|labels| - 1], k);
    }
  }

  /**
   * Rows whose key no kept label produces are untouched: other stocks, and this stock's
   * periods the statements do not cover.
   */
  lemma {:induction false} InlineTouchesOnlyKeptPeriods(schema: Schema, rows: map<Key, Row>, stock: string, s: Sheets, labels: seq<string>, k: Key)
    requires k in rows && InlineSaves(schema, rows, stock, s, labels).Some?
    requires forall l | l in labels && Kept(l).Some? :: k != [stock, IsoString(Kept(l).value)]
    ensures k in InlineSaves(schema, rows, stock, s, labels).value
    ensures InlineSaves(schema, rows, stock, s, labels).value[k] == rows[k]
    decreases |labels|
  {
    if labels != [] {
      InlineTouchesOnlyKeptPeriods(schema, rows, stock, s, labels[..|labels| - 1], k);
    }
  }

  /**
   * A row the inline INSERT writes holds the record's identity, its currency and its field
   * values; market, never supplied, takes the column DEFAULT, as does data_quality.
   */
  lemma InlineSavedRow(schema: Schema, rows: map<Key, Row>, stock: string, record: map<string, Option<real>>, d: Date)
    requires HasLockColumn(schema) && ValidDate(d) && !LockedIn(rows, [stock, IsoString(d)])
    requires "market" !in record && "data_quality" !in record
    requires Accepts(schema, InlineRow(stock, record, d))
    ensures InlineWrite(schema, rows, [stock, IsoString(d)], InlineRow(stock, record, d)).Some?
    ensures var row := InlineWrite(schema, rows, [stock, IsoString(d)], InlineRow(stock, record, d)).value[[stock, IsoString(d)]];
      Get(row, "stock_code") == Text(stock) && Get(row, "report_period") == Text(IsoString(d))
      && Get(row, "report_type") == Text(ReportTypeOfMonth(d.month)) && Get(row, "currency") == Text("CNY")
      && Get(row, "market") == Get(schema.defaults, "market")
      && Get(row, "data_quality") == Get(schema.defaults, "data_quality")
  {
    var key := [stock, IsoString(d)];
    var row := InlineRow(stock, record, d);
    InlineRowIdentity(stock, record, d);
    InlineWriteRow(schema, rows, key, row);
    var written := InlineWrite(schema, rows, key, row).value[key];
    assert Get(written, "stock_code") == row["stock_code"];
    assert Get(written, "report_period") == row["report_period"];
    assert Get(written, "report_type") == row["report_type"];
    assert Get(written, "currency") == row["currency"];
    assert Get(written, "market") == Get(schema.defaults, "market");
    assert Get(written, "data_quality") == Get(schema.defaults, "data_quality");
  }

  /** The identity values of an inline row, and the two columns it leaves to their defaults. */
  lemma InlineRowIdentity(stock: string, record: map<string, Option<real>>, d: Date)
    requires ValidDate(d)
    requires "market" !in record && "data_quality" !in record
    ensures var row := InlineRow(stock, record, d);
      row["stock_code"] == Text(stock) && row["report_period"] == Text(IsoString(d))
      && row["report_type"] == Text(ReportTypeOfMonth(d.month)) && row["currency"] == Text("CNY")
      && "market" !in row && "data_quality" !in row
  {
    assert DataRow(ToCells(record)).Keys == record.Keys;
  }

  /** What a lock-checked write that goes through leaves in the row. */
  lemma InlineWriteRow(schema: Schema, rows: map<Key, Row>, key: Key, row: Row)
    requires HasLockColumn(schema) && !LockedIn(rows, key) && Accepts(schema, row)
    ensures InlineWrite(schema, rows, key, row).Some? && key in InlineWrite(schema, rows, key, row).value
    ensures forall c ::
      Get(InlineWrite(schema, rows, key, row).value[key], c) == if c in row then row[c] else Get(schema.defaults, c)
  {
  }

  /** The field mapping produces neither market nor data_quality, so the inline rows never supply them. */
  lemma RecordLacksMarket(s: Sheets, period: string)
    ensures "market" !in Record(s, period) && "data_quality" !in Record(s, period)
  {
    MarketNotAField();
    QualityNotAField();
  }

  // ---------------------------------------------------------------------------------------
  // _validate_data
  // ---------------------------------------------------------------------------------------

  function Reverse(s: seq<string>): (r: seq<string>)
    ensures |r| == |s| && forall i | 0 <= i < |s| :: r[i] == s[|s| - 1 - i]
    ensures forall x :: x in r <==> x in s
  {
    if s == [] then [] else assert s == [s[0]] + s[1..]; Reverse(s[1..]) + [s[0]]
  }

  /** The labels of a set in strictly descending order. */
  function Descending(periods: set<string>): (r: seq<string>)
    ensures |r| == |periods|
    ensures forall x :: x in r <==> x in periods
    ensures forall i, j | 0 <= i < j < |r| :: StrLe(r[j], r[i]) && r[i] != r[j]
  {
    var sorted := SortedStrings(periods);
    Reverse(sorted)
  }

  /** The first ten labels of a set in descending order (all of them when there are fewer). */
  function Latest(periods: set<string>): (r: seq<string>)
    ensures |r| == if |periods| < 10 then |periods| else 10
    ensures forall p | p in r :: p in periods
    ensures forall i, j | 0 <= i < j < |r| :: StrLe(r[j], r[i]) && r[i] != r[j]
  {
    var descending := Descending(periods);
    var n := if |descending| < 10 then |descending| else 10;
    PrefixDescending(descending, n);
    descending[..n]
  }

  /** A prefix of a strictly descending sequence is strictly descending. */
  lemma PrefixDescending(d: seq<string>, n: nat)
    requires n <= |d|
    requires forall i, j | 0 <= i < j < |d| :: StrLe(d[j], d[i]) && d[i] != d[j]
    ensures forall i, j | 0 <= i < j < n :: StrLe(d[..n][j], d[..n][i]) && d[..n][i] != d[..n][j]
  {
    forall i, j | 0 <= i < j < n
      ensures StrLe(d[..n][j], d[..n][i]) && d[..n][i] != d[..n][j]
    {
      assert d[..n][i] == d[i] && d[..n][j] == d[j];
    }
  }

  /** `ORDER BY report_period DESC LIMIT 10`. */
  function RecentPeriods(rows: map<Key, Row>, stock: string): seq<string> {
    Latest(StockPeriods(rows, stock))
  }

  /** No label left out of the ten kept is later than any label kept. */
  lemma LatestAreLatest(periods: set<string>)
    ensures forall p, i | p in periods && p !in Latest(periods) && 0 <= i < |Latest(periods)| ::
      StrLe(p, Latest(periods)[i])
  {
    var descending := Descending(periods);
    var n := if |descending| < 10 then |descending| else 10;
    assert Latest(periods) == descending[..n];
    forall p | p in periods && p !in descending[..n] {
      LeftOutBelow(descending, n, p);
    }
  }

  /** In a descending sequence, an element past a prefix is below every element of the prefix. */
  lemma LeftOutBelow(d: seq<string>, n: nat, p: string)
    requires n <= |d|
    requires forall i, j | 0 <= i < j < |d| :: StrLe(d[j], d[i])
    requires p in d && p !in d[..n]
    ensures forall i | 0 <= i < n :: StrLe(p, d[..n][i])
  {
    var j :| 0 <= j < |d| && d[j] == p;
    forall i | 0 <= i < n
      ensures StrLe(p, d[..n][i])
    {
      assert d[..n][i] == d[i];
      assert i < j;
    }
  }

  /** The table during the sweep, and whether an exception has ended it. */
  datatype Sweep = Sweep(rows: map<Key, Row>, stopped: bool)

  /** The loop of `_validate_data`: an exception from `validate_report` ends the whole loop. */
  function ValidationSweep(schema: Schema, rows: map<Key, Row>, stock: string, periods: seq<string>, docs: Documents): Sweep
    decreases |periods|
  {
    if periods == [] then Sweep(rows, false)
    else
      var before := ValidationSweep(schema, rows, stock, periods[..|periods| - 1], docs);
      if before.stopped then before
      else
        var key := [stock, periods[|periods| - 1]];
        var report := ReportOf(schema, before.rows, key, docs);
        Sweep(QualityEffect(before.rows, key, report), report.Raised?)
  }

  /**
   * `_validate_data`: validates the ten latest periods of the stock, newest first. Each
   * verdict is committed as it is written; the counts it prints are left out, and it never
   * raises.
   */
  method ValidateData(t: Table, stock: string, docs: Documents)
    requires t.Valid() && t.schema.unique == RawUnique
    modifies t
    ensures t.Valid()
    ensures t.rows == ValidationSweep(t.schema, old(t.rows), stock, RecentPeriods(old(t.rows), stock), docs).rows
  {
    var periods := RecentPeriods(t.rows, stock);
    ValidatePeriods(t, stock, periods, docs);
  }

  /** The loop of `_validate_data` over the given periods, in order. */
  method ValidatePeriods(t: Table, stock: string, periods: seq<string>, docs: Documents)
    requires t.Valid() && t.schema.unique == RawUnique
    modifies t
    ensures t.Valid()
    ensures t.rows == ValidationSweep(t.schema, old(t.rows), stock, periods, docs).rows
  {
    ghost var start := t.rows;
    var i := 0;
    while i < |periods|
      invariant 0 <= i <= |periods|
      invariant t.Valid()
      invariant ValidationSweep(t.schema, start, stock, periods[..i], docs) == Sweep(t.rows, false)
    {
      ghost var before := t.rows;
      var report := ValidateReport(t, stock, periods[i], docs);
      SweepStep(t.schema, start, stock, periods, docs, i, before);
      if report.Raised? {
        SweepStopped(t.schema, start, stock, periods, docs, i + 1);
        return;
      }
      i := i + 1;
    }
    assert periods[..i] == periods;
  }

  /** One more period of a sweep that has not stopped validates that period against the table so far. */
  lemma SweepStep(schema: Schema, rows: map<Key, Row>, stock: string, periods: seq<string>, docs: Documents, i: nat, now: map<Key, Row>)
    requires i < |periods| && ValidationSweep(schema, rows, stock, periods[..i], docs) == Sweep(now, false)
    ensures ValidationSweep(schema, rows, stock, periods[..i + 1], docs)
      == var report := ReportOf(schema, now, [stock, periods[i]], docs);
         Sweep(QualityEffect(now, [stock, periods[i]], report), report.Raised?)
  {
    assert periods[..i + 1][..i] == periods[..i];
  }

  /** After the sweep has stopped, later periods change nothing. */
  lemma {:induction false} SweepStopped(schema: Schema, rows: map<Key, Row>, stock: string, periods: seq<string>, docs: Documents, n: nat)
    requires n <= |periods| && ValidationSweep(schema, rows, stock, periods[..n], docs).stopped
    ensures ValidationSweep(schema, rows, stock, periods, docs) == ValidationSweep(schema, rows, stock, periods[..n], docs)
    decreases |periods|
  {
    if n < |periods| {
      var m := |periods| - 1;
      assert periods[..m][..n] == periods[..n];
      SweepStopped(schema, rows, stock, periods[..m], docs, n);
    } else {
      assert periods[..n] == periods;
    }
  }

  /** Validation writes nothing but data_quality: every other column of every row keeps its value. */
  lemma {:induction false} SweepOnlyWritesQuality(schema: Schema, rows: map<Key, Row>, stock: string, periods: seq<string>, docs: Documents, k: Key, c: string)
    requires k in rows && c != "data_quality"
    ensures ValidationSweep(schema, rows, stock, periods, docs).rows.Keys == rows.Keys
    ensures Get(ValidationSweep(schema, rows, stock, periods, docs).rows[k], c) == Get(rows[k], c)
    decreases |periods|
  {
    if periods != [] {
      var before := ValidationSweep(schema, rows, stock, periods[..|periods| - 1], docs);
      SweepOnlyWritesQuality(schema, rows, stock, periods[..|periods| - 1], docs, k, c);
      if !before.stopped {
        var key := [stock, periods[|periods| - 1]];
        QualityWriteOnlyTouchesQuality(before.rows, key, ReportOf(schema, before.rows, key, docs), c);
      }
    }
  }

  /** The table after `fetch_a_stock_financials`; `None` when it returns False. */
  function FetchEffect(schema: Schema, rows: map<Key, Row>, stock: string, sheets: Option<Sheets>, hasValidator: bool, docs: Documents): Option<map<Key, Row>> {
    if sheets.None? then None
    else
      match InlineSaves(schema, rows, stock, sheets.value, Periods(sheets.value))
      case None => None
      case Some(saved) =>
        if hasValidator then Some(ValidationSweep(schema, saved, stock, RecentPeriods(saved, stock), docs).rows)
        else Some(saved)
  }

  /**
   * `fetch_a_stock_financials`: `sheets` is `None` when a statement download raised, and
   * `hasValidator` says whether `validator` could be imported. True on success; False,
   * with the table unchanged, on any exception.
   */
  method FetchAStockFinancials(t: Table, stock: string, sheets: Option<Sheets>, hasValidator: bool, docs: Documents) returns (ok: bool)
    requires t.Valid() && t.schema.unique == RawUnique
    modifies t
    ensures t.Valid()
    ensures ok == FetchEffect(t.schema, old(t.rows), stock, sheets, hasValidator, docs).Some?
    ensures t.rows == if ok then FetchEffect(t.schema, old(t.rows), stock, sheets, hasValidator, docs).value else old(t.rows)
  {
    if sheets.None? {
      return false;
    }
    ghost var saves := InlineSaves(t.schema, t.rows, stock, sheets.value, Periods(sheets.value));
    var saved := ProcessAndSave(t, stock, sheets.value);
    if !saved {
      return false;
    }
    assert saves == Some(t.rows);
    if hasValidator {
      ValidateData(t, stock, docs);
    }
    return true;
  }
}
