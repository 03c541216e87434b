/**
 * `BaseFetcher.save_to_db`: the lock-respecting write of one raw financial record into
 * financial_reports_raw, shared by the A-share and HK fetchers.
 */
module BaseFetcher {
  import opened Wrappers
  import opened Cells
  import opened Store

  /** The columns every save supplies itself, ahead of the record's own fields. */
  const FixedColumns: set<string> := {"stock_code", "report_period", "report_type", "market", "currency"}

  /** financial_reports_raw is UNIQUE on (stock_code, report_period). */
  const RawUnique: seq<string> := ["stock_code", "report_period"]

  /** The DEFAULT clauses of financial_reports_raw: data_quality and, after migration, market. */
  const RawDefaults: Row := map["data_quality" := Text("UNVERIFIED"), "market" := Text("CN")]

  /** The arguments of `save_to_db`; `data` is the record's dict. */
  datatype SaveRequest = SaveRequest(
    stock: string, period: string, reportType: string,
    data: map<string, Cell>,
    market: string, currency: string,
    raw: Option<map<string, JsonValue>>)

  /** `LockQueryRaised`: the `SELECT is_locked` raised, and the exception leaves `save_to_db`. */
  datatype SaveOutcome = LockQueryRaised | SkippedLocked | Saved | InsertFailed

  /** No key of the dict names a column the save supplies itself. */
  predicate WellFormed(req: SaveRequest) {
    forall k | k in req.data :: k !in FixedColumns && k != "raw_data"
  }

  function KeyOf(req: SaveRequest): Key {
    [req.stock, req.period]
  }

  /** How a dict value is bound as an SQL parameter. */
  function SqlOf(c: Cell): SqlValue {
    match c
    case Null => SqlNull
    case NaN => SqlNull
    case Num(r) => Real(r)
    case Str(s) => Text(s)
  }

  /** The dict after the `pd.isna(v)` pass: every NaN replaced by `None`. */
  function Clean(data: map<string, Cell>): (r: map<string, Cell>)
    ensures r.Keys == data.Keys
    ensures forall k | k in r :: !r[k].NaN? && (data[k].NaN? || r[k] == data[k])
  {
    map k | k in data :: if data[k].NaN? then Null else data[k]
  }

  /**
   * `for k, v in data.items(): if pd.isna(v): data[k] = None`, on a copy of the dict
   * (the caller's dict is the one `save_to_db` mutates).
   */
  method NullifyNaN(data: map<string, Cell>) returns (cleaned: map<string, Cell>)
    ensures cleaned == Clean(data)
  {
    cleaned := data;
    var todo := data.Keys;
    while todo != {}
      invariant todo <= data.Keys && cleaned.Keys == data.Keys
      invariant forall k | k in data && k !in todo :: cleaned[k] == if data[k].NaN? then Null else data[k]
      invariant forall k | k in todo :: cleaned[k] == data[k]
      decreases todo
    {
      var k :| k in todo;
      if IsNa(cleaned[k]) {
        cleaned := cleaned[k := Null];
      }
      todo := todo - {k};
    }
  }

  /** The identity columns of the INSERT. */
  function FixedRow(req: SaveRequest): Row {
    map["stock_code" := Text(req.stock), "report_period" := Text(req.period), "report_type" := Text(req.reportType),
        "market" := Text(req.market), "currency" := Text(req.currency)]
  }

  /** The dict's columns, after NaN cleaning. */
  function DataRow(data: map<string, Cell>): Row {
    map k | k in data :: SqlOf(data[k])
  }

  /** raw_data, supplied only when given. */
  function RawRow(req: SaveRequest): Row {
    if req.raw.Some? then map["raw_data" := Json(req.raw.value)] else map[]
  }

  /**
   * The columns the INSERT supplies and their values. The fetchers never put an identity
   * column or raw_data into the dict; should one do so, the identity values win here.
   */
  function SuppliedRow(req: SaveRequest): Row {
    DataRow(Clean(req.data)) + RawRow(req) + FixedRow(req)
  }

  /** The supplied row carries the record's own key, so it is filed under that key. */
  lemma SuppliedKeyMatches(schema: Schema, req: SaveRequest)
    requires schema.unique == RawUnique
    ensures KeyMatches(schema, KeyOf(req), SuppliedRow(req))
  {
    var f := FixedRow(req);
    assert f["stock_code"] == Text(req.stock) && f["report_period"] == Text(req.period);
    assert SuppliedRow(req)["stock_code"] == Text(req.stock);
    assert SuppliedRow(req)["report_period"] == Text(req.period);
  }

  predicate LockedIn(rows: map<Key, Row>, key: Key) {
    key in rows && IsLocked(rows[key])
  }

  /**
   * The table after `save_to_db(req)`: unchanged when the lock query raises, on a lock or
   * on a failed insert, else one row replaced.
   */
  function SaveEffect(schema: Schema, rows: map<Key, Row>, req: SaveRequest): map<Key, Row> {
    if !HasLockColumn(schema) || LockedIn(rows, KeyOf(req)) then rows
    else Upsert(schema, rows, KeyOf(req), SuppliedRow(req))
  }

  function OutcomeOf(schema: Schema, rows: map<Key, Row>, req: SaveRequest): SaveOutcome {
    if !HasLockColumn(schema) then LockQueryRaised
    else if LockedIn(rows, KeyOf(req)) then SkippedLocked
    else if Accepts(schema, SuppliedRow(req)) then Saved
    else InsertFailed
  }

  /**
   * The supplied columns: exactly the identity columns, the dict's keys and, when given,
   * raw_data, each holding the value given for it (a NaN as NULL).
   */
  lemma SuppliedRowSpec(req: SaveRequest)
    requires WellFormed(req)
    ensures var s := SuppliedRow(req);
      s.Keys == FixedColumns + req.data.Keys + (if req.raw.Some? then {"raw_data"} else {})
      && s["stock_code"] == Text(req.stock) && s["report_period"] == Text(req.period)
      && s["report_type"] == Text(req.reportType)
      && s["market"] == Text(req.market) && s["currency"] == Text(req.currency)
      && (forall k | k in req.data :: s[k] == SqlOf(req.data[k]))
      && (req.raw.Some? ==> s["raw_data"] == Json(req.raw.value))
  {
    var d := DataRow(Clean(req.data));
    var r := RawRow(req);
    var f := FixedRow(req);
    assert d.Keys == req.data.Keys;
    assert f.Keys == FixedColumns;
    forall k | k in req.data
      ensures SuppliedRow(req)[k] == SqlOf(req.data[k])
    {
      assert k !in f && k !in r;
    }
    FixedRowValues(req);
  }

  /** The identity values as the supplied row holds them: the fixed columns are added last. */
  lemma FixedRowValues(req: SaveRequest)
    ensures var s := SuppliedRow(req);
      s["stock_code"] == Text(req.stock) && s["report_period"] == Text(req.period)
      && s["report_type"] == Text(req.reportType)
      && s["market"] == Text(req.market) && s["currency"] == Text(req.currency)
      && (req.raw.Some? ==> s["raw_data"] == Json(req.raw.value))
  {
    var f := FixedRow(req);
    assert "raw_data" !in f;
  }

  /**
   * What an unlocked, accepted save leaves in the record's row: exactly the given identity
   * columns and dict values (a NaN as NULL), raw_data when given, and the DEFAULT of every
   * other column.
   */
  lemma SavedRow(schema: Schema, rows: map<Key, Row>, req: SaveRequest)
    requires HasLockColumn(schema) && WellFormed(req) && !LockedIn(rows, KeyOf(req)) && Accepts(schema, SuppliedRow(req))
    ensures KeyOf(req) in SaveEffect(schema, rows, req)
    ensures var row := SaveEffect(schema, rows, req)[KeyOf(req)];
      Get(row, "stock_code") == Text(req.stock) && Get(row, "report_period") == Text(req.period)
      && Get(row, "report_type") == Text(req.reportType)
      && Get(row, "market") == Text(req.market) && Get(row, "currency") == Text(req.currency)
      && (forall k | k in req.data :: Get(row, k) == SqlOf(req.data[k]))
      && Get(row, "raw_data") == (if req.raw.Some? then Json(req.raw.value) else Get(schema.defaults, "raw_data"))
      && (forall c | c !in FixedColumns && c !in req.data && c != "raw_data" :: Get(row, c) == Get(schema.defaults, c))
  {
    SuppliedRowSpec(req);
    SavedColumns(schema, rows, req);
    var s := SuppliedRow(req);
    var row := SaveEffect(schema, rows, req)[KeyOf(req)];
    assert Get(row, "stock_code") == s["stock_code"] && Get(row, "report_period") == s["report_period"];
    assert Get(row, "report_type") == s["report_type"];
    assert Get(row, "market") == s["market"] && Get(row, "currency") == s["currency"];
    forall k | k in req.data
      ensures Get(row, k) == SqlOf(req.data[k])
    {
      assert k in s;
    }
    forall c | c !in FixedColumns && c !in req.data && c != "raw_data"
      ensures Get(row, c) == Get(schema.defaults, c)
    {
      assert c !in s;
    }
  }

  /** An accepted, unlocked save leaves the supplied value of each supplied column, and the DEFAULT of every other. */
  lemma SavedColumns(schema: Schema, rows: map<Key, Row>, req: SaveRequest)
    requires HasLockColumn(schema) && !LockedIn(rows, KeyOf(req)) && Accepts(schema, SuppliedRow(req))
    ensures KeyOf(req) in SaveEffect(schema, rows, req)
    ensures forall c ::
      Get(SaveEffect(schema, rows, req)[KeyOf(req)], c) == if c in SuppliedRow(req) then SuppliedRow(req)[c] else Get(schema.defaults, c)
  {
  }

  /** The saves of a whole run, applied in order. */
  function ApplySaves(schema: Schema, rows: map<Key, Row>, reqs: seq<SaveRequest>): map<Key, Row>
    decreases |reqs|
  {
    if reqs == [] then rows
    else SaveEffect(schema, ApplySaves(schema, rows, reqs[..|reqs| - 1]), reqs[|reqs| - 1])
  }

  /** However many saves run, a locked row stays exactly as it was. */
  lemma {:induction false} LockedSurvivesSaves(schema: Schema, rows: map<Key, Row>, reqs: seq<SaveRequest>, k: Key)
    requires LockedIn(rows, k)
    ensures k in ApplySaves(schema, rows, reqs) && ApplySaves(schema, rows, reqs)[k] == rows[k]
    decreases |reqs|
  {
    if reqs != [] {
      LockedSurvivesSaves(schema, rows, reqs[..|reqs| - 1], k);
    }
  }

  /** On a table without is_locked every save raises before writing, so no run changes anything. */
  lemma {:induction false} NoLockColumnNoWrites(schema: Schema, rows: map<Key, Row>, reqs: seq<SaveRequest>)
    requires !HasLockColumn(schema)
    ensures ApplySaves(schema, rows, reqs) == rows
    decreases |reqs|
  {
    if reqs != [] {
      NoLockColumnNoWrites(schema, rows, reqs[..|reqs| - 1]);
    }
  }

  /** A run of saves touches only the rows of the periods it saves. */
  lemma {:induction false} SavesTouchOnlyTheirKeys(schema: Schema, rows: map<Key, Row>, reqs: seq<SaveRequest>, k: Key)
    requires k in rows && forall i | 0 <= i < |reqs| :: KeyOf(reqs[i]) != k
    ensures k in ApplySaves(schema, rows, reqs) && ApplySaves(schema, rows, reqs)[k] == rows[k]
    decreases |reqs|
  {
    if reqs != [] {
      SavesTouchOnlyTheirKeys(schema, rows, reqs[..|reqs| - 1], k);
    }
  }

  /**
   * `save_to_db`. The `SELECT is_locked`, outside any `try`, raises on a table without that
   * column (`LockQueryRaised`, nothing written); a stored `is_locked == 1` returns at once;
   * otherwise NaN values in the caller's dict become `None` (returned as `cleaned`), the
   * column and value lists are built, raw_data is appended when given, and
   * `INSERT OR REPLACE` runs; a failure of the insert is only logged.
   */
  method SaveToDb(t: Table, req: SaveRequest) returns (cleaned: map<string, Cell>, outcome: SaveOutcome)
    requires t.Valid() && t.schema.unique == RawUnique
    modifies t
    ensures t.Valid()
    ensures t.rows == SaveEffect(t.schema, old(t.rows), req)
    ensures outcome == OutcomeOf(t.schema, old(t.rows), req)
    ensures cleaned == if outcome.Saved? || outcome.InsertFailed? then Clean(req.data) else req.data
  {
    if "is_locked" !in t.schema.columns {
      return req.data, LockQueryRaised;
    }
    var key := [req.stock, req.period];
    if key in t.rows && IsLocked(t.rows[key]) {
      return req.data, SkippedLocked;
    }

    cleaned := NullifyNaN(req.data);

    var supplied := DataRow(cleaned);
    if req.raw.Some? {
      supplied := supplied["raw_data" := Json(req.raw.value)];
    }
    supplied := supplied + FixedRow(req);
    assert supplied == SuppliedRow(req);
    SuppliedKeyMatches(t.schema, req);
    var ok := t.InsertOrReplace(key, supplied);
    outcome := if ok then Saved else InsertFailed;
  }
}
