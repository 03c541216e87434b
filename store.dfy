/**
 * The SQLite tables the pipeline writes: financial_reports_raw, financial_indicators_derived
 * and financial_reports_files. A table is a map from its UNIQUE key to its rows; a row maps
 * column names to values, and a column a row does not mention reads NULL.
 */
module Store {
  import opened Wrappers

  /** A value inside the JSON document stored in raw_data. */
  datatype JsonValue = JNull | JNum(r: real) | JStr(s: string)

  /** A value stored in a column; raw_data holds a JSON document. */
  datatype SqlValue = SqlNull | Int(i: int) | Real(r: real) | Text(s: string) | Json(doc: map<string, JsonValue>)

  type Row = map<string, SqlValue>

  /** The value of a column, NULL when the row does not mention it. */
  function Get(row: Row, column: string): SqlValue {
    if column in row then row[column] else SqlNull
  }

  /** The values of a table's UNIQUE columns, in declaration order. */
  type Key = seq<string>

  /** The columns a table has, their DEFAULT values, and its UNIQUE column list. */
  datatype Schema = Schema(columns: set<string>, defaults: Row, unique: seq<string>)

  /** `row` holds `key` in the schema's UNIQUE columns. */
  predicate KeyMatches(schema: Schema, key: Key, row: Row) {
    |key| == |schema.unique| && forall i | 0 <= i < |key| :: Get(row, schema.unique[i]) == Text(key[i])
  }

  /** Python's `row[0] == 1` on the stored is_locked value. */
  predicate IsLocked(row: Row) {
    Get(row, "is_locked") == Int(1) || Get(row, "is_locked") == Real(1.0)
  }

  /**
   * The lock check's `SELECT is_locked` compiles only on a table with that column; no
   * CREATE TABLE or migration of the repository adds it, and on a table without it SQLite
   * raises `no such column`.
   */
  predicate HasLockColumn(schema: Schema) {
    "is_locked" in schema.columns
  }

  /** SQLite refuses an INSERT naming a column the table does not have. */
  predicate Accepts(schema: Schema, supplied: Row) {
    supplied.Keys <= schema.columns
  }

  /**
   * `INSERT OR REPLACE` of the supplied columns under `key`: the old row, if any, is deleted
   * and a new one is built from the supplied values, every other column taking its DEFAULT.
   */
  function Upsert(schema: Schema, rows: map<Key, Row>, key: Key, supplied: Row): (r: map<Key, Row>)
    ensures Accepts(schema, supplied) ==>
      key in r && forall c :: Get(r[key], c) == (if c in supplied then supplied[c] else Get(schema.defaults, c))
    ensures !Accepts(schema, supplied) ==> r == rows
    ensures r.Keys == rows.Keys + (if Accepts(schema, supplied) then {key} else {})
    ensures forall k | k in rows && k != key :: r[k] == rows[k]
  {
    if Accepts(schema, supplied) then rows[key := schema.defaults + supplied] else rows
  }

  /** `UPDATE ... SET column = value WHERE <unique columns match key>`. */
  function SetColumn(rows: map<Key, Row>, key: Key, column: string, value: SqlValue): (r: map<Key, Row>)
    ensures r.Keys == rows.Keys
    ensures forall k | k in rows && k != key :: r[k] == rows[k]
    ensures key in rows ==> forall c :: Get(r[key], c) == (if c == column then value else Get(rows[key], c))
  {
    if key in rows then rows[key := rows[key][column := value]] else rows
  }

  /** A number read back from a REAL or INTEGER column; `None` for NULL and text. */
  function Numeric(v: SqlValue): Option<real> {
    match v
    case Int(i) => Some(i as real)
    case Real(r) => Some(r)
    case _ => None
  }

  /** The periods stored for a stock: `SELECT DISTINCT report_period ... WHERE stock_code = ?`. */
  function StockPeriods(rows: map<Key, Row>, stock: string): set<string> {
    set k | k in rows && |k| == 2 && k[0] == stock :: k[1]
  }

  class Table {
    const schema: Schema
    var rows: map<Key, Row>

    /** Every row is filed under the values of its own UNIQUE columns. */
    ghost predicate Valid()
      reads this
    {
      forall k | k in rows :: KeyMatches(schema, k, rows[k])
    }

    constructor (schema: Schema, rows: map<Key, Row>)
      requires forall k | k in rows :: KeyMatches(schema, k, rows[k])
      ensures this.schema == schema && this.rows == rows && Valid()
    {
      this.schema := schema;
      this.rows := rows;
    }

    method InsertOrReplace(key: Key, supplied: Row) returns (ok: bool)
      requires Valid() && KeyMatches(schema, key, supplied)
      modifies this
      ensures ok == Accepts(schema, supplied)
      ensures rows == Upsert(schema, old(rows), key, supplied)
      ensures Valid()
    {
      ok := supplied.Keys <= schema.columns;
      if ok {
        rows := rows[key := schema.defaults + supplied];
      }
    }

    /** Fails, changing nothing, when the table has no such column. */
    method Update(key: Key, column: string, value: SqlValue) returns (ok: bool)
      requires Valid() && column !in schema.unique
      modifies this
      ensures ok == (column in schema.columns)
      ensures rows == if ok then SetColumn(old(rows), key, column, value) else old(rows)
      ensures Valid()
    {
      ok := column in schema.columns;
      if ok {
        rows := SetColumn(rows, key, column, value);
      }
    }
  }
}
