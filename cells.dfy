/**
 * Cells of the pandas DataFrames the fetchers read, and the coercion every fetcher applies
 * to them before a value reaches the database.
 */
module Cells {
  import opened Wrappers
  import opened Texts

  /** One DataFrame cell: missing (`None`), `NaN`, a number, or text. */
  datatype Cell = Null | NaN | Num(r: real) | Str(s: string)

  /** `pd.isna`. */
  predicate IsNa(c: Cell) { c.Null? || c.NaN? }

  /**
   * The A-share fetchers' `get_val` on a cell that exists: missing, "" and "--" give `None`;
   * text loses its thousands separators and goes through `float`, whose `ValueError` also
   * gives `None`; a number is kept.
   */
  function Coerce(c: Cell): (r: Option<real>)
    ensures IsNa(c) ==> r.None?
    ensures c.Num? ==> r == Some(c.r)
    ensures c.Str? && (c.s == "" || c.s == "--") ==> r.None?
  {
    match c
    case Null => None
    case NaN => None
    case Num(x) => Some(x)
    case Str(s) => if s == "" || s == "--" then None else ParseFloat(Without(s, ','))
  }

  /** Thousands separators make no difference to the coerced value. */
  lemma CoerceIgnoresCommas(s: string)
    ensures Coerce(Str(s)) == Coerce(Str(Without(s, ',')))
  {
    var w := Without(s, ',');
    WithoutIdempotent(s, ',');
    if w == "" {
      assert ParseFloat(w) == None by {
        assert IndexOf(w, '.') == None;
      }
    } else if w == "--" {
      assert ParseFloat(w) == None by {
        assert w[1..] == "-";
        assert IndexOf(w[1..], '.') == None;
      }
    }
  }

  /** A whole number written with thousands separators coerces to that number. */
  lemma CoerceThousands(n: nat)
    ensures Coerce(Str(WithThousands(NatToString(n)))) == Some(n as real)
  {
    var s := WithThousands(NatToString(n));
    WithThousandsWithout(NatToString(n));
    ParseFloatNat(n);
  }

  /** Python truthiness of a float-or-`None`: `None` and 0.0 are false. */
  predicate Truthy(x: Option<real>) { x.Some? && x.value != 0.0 }

  /** Python's `a or b` on floats-or-`None`. */
  function Or(a: Option<real>, b: Option<real>): (r: Option<real>)
    ensures r == a || r == b
    ensures Truthy(r) <==> Truthy(a) || Truthy(b)
    ensures Truthy(a) ==> r == a
  {
    if Truthy(a) then a else b
  }

  /**
   * A reported zero does not survive an `or` fallback: it is replaced by the fallback,
   * even when the fallback is missing.
   */
  lemma OrDropsZero(b: Option<real>)
    ensures Or(Some(0.0), b) == b
  {
  }

  /** The dict handed to `save_to_db`: a float or `None` per field. */
  function ToCells(record: map<string, Option<real>>): (r: map<string, Cell>)
    ensures r.Keys == record.Keys
    ensures forall k | k in r :: (r[k] == Null <==> record[k].None?) && (record[k].Some? ==> r[k] == Num(record[k].value))
  {
    map k | k in record :: if record[k].Some? then Num(record[k].value) else Null
  }
}
