/**
 * `FinancialDataValidator`: cross-checks four key figures of a stored raw record against the
 * numbers found in the text of the published report, and writes the verdict into the
 * record's data_quality column.
 */
module Validator {
  import opened Wrappers
  import opened Texts
  import opened Store

  /** Largest relative deviation accepted, exclusive: 2%. */
  const Tolerance: real := 0.02

  /**
   * A keyword of the extraction pattern: a literal, or `before.*after` (any characters but a
   * newline between the two parts, as many as possible).
   */
  datatype Keyword = Lit(word: string) | Gap(before: string, after: string)

  /** The keywords to search the report text with, in priority order, and the display unit. */
  datatype FieldRule = FieldRule(keywords: seq<Keyword>, unit: real)

  /** `CRITICAL_FIELDS`: provider column name to its extraction rule. */
  const CriticalFields: map<string, FieldRule> := map[
    "revenue" := FieldRule([Lit("营业收入"), Lit("营业总收入"), Lit("一、营业总收入")], 100000000.0),
    "net_income_parent" := FieldRule([Gap("归属于母公司", "净利润"), Lit("归母净利润"), Lit("归属于上市公司股东的净利润")], 100000000.0),
    "total_assets" := FieldRule([Lit("资产总计"), Lit("总资产"), Lit("资产合计")], 100000000.0),
    "total_equity" := FieldRule([Lit("股东权益合计"), Lit("所有者权益合计"), Lit("归属于母公司股东权益合计")], 100000000.0)
  ]

  /** The dict's iteration order. */
  const FieldOrder: seq<string> := ["revenue", "net_income_parent", "total_assets", "total_equity"]

  lemma FieldOrderCoversRules()
    ensures forall f | f in FieldOrder :: f in CriticalFields
    ensures forall f | f in CriticalFields :: f in FieldOrder
    ensures forall i, j | 0 <= i < j < |FieldOrder| :: FieldOrder[i] != FieldOrder[j]
  {
  }

  // ---------------------------------------------------------------------------------------
  // The pattern `{keyword}[^\d]{0,20}?([\d,]+\.?\d*)` and `re.findall(...)[0]`
  // ---------------------------------------------------------------------------------------

  /** `c` can begin or continue the captured `[\d,]+`. */
  predicate DigitOrComma(c: char) { IsDigit(c) || c == ',' }

  /**
   * Where the lazy window `[^\d]{0,n}?` lets the capture begin: the first digit or comma at
   * `from` or after it, reached by skipping at most `budget` characters.
   */
  function CaptureStart(s: string, from: nat, budget: nat): (r: Option<nat>)
    ensures r.Some? ==> from <= r.value < |s| && r.value <= from + budget && DigitOrComma(s[r.value])
    ensures r.Some? ==> forall k | from <= k < r.value :: !DigitOrComma(s[k])
    ensures r.None? ==> forall k | from <= k <= from + budget && k < |s| :: !DigitOrComma(s[k])
    decreases budget
  {
    if from >= |s| then None
    else if DigitOrComma(s[from]) then Some(from)
    else if budget == 0 then None
    else CaptureStart(s, from + 1, budget - 1)
  }

  /** End of the longest run of digits and commas starting at `i`. */
  function DigitCommaRunEnd(s: string, i: nat): (e: nat)
    requires i <= |s|
    ensures i <= e <= |s|
    ensures forall k | i <= k < e :: DigitOrComma(s[k])
    ensures e < |s| ==> !DigitOrComma(s[e])
    decreases |s| - i
  {
    if i < |s| && DigitOrComma(s[i]) then DigitCommaRunEnd(s, i + 1) else i
  }

  /** End of the longest run of digits starting at `i`. */
  function DigitRunEnd(s: string, i: nat): (e: nat)
    requires i <= |s|
    ensures i <= e <= |s|
    ensures forall k | i <= k < e :: IsDigit(s[k])
    ensures e < |s| ==> !IsDigit(s[e])
    decreases |s| - i
  {
    if i < |s| && IsDigit(s[i]) then DigitRunEnd(s, i + 1) else i
  }

  /** What `([\d,]+\.?\d*)` captures at `q`; every part is greedy and none needs to give back. */
  function CaptureAt(s: string, q: nat): string
    requires q < |s|
  {
    var e := DigitCommaRunEnd(s, q);
    var e' := if e < |s| && s[e] == '.' then DigitRunEnd(s, e + 1) else e;
    s[q..e']
  }

  /** The window followed by the capture, tried at `from`. */
  function CaptureFrom(s: string, from: nat): Option<string> {
    match CaptureStart(s, from, 20)
    case None => None
    case Some(q) => Some(CaptureAt(s, q))
  }

  /** The first newline at or after `i`, or the end of the text: how far `.*` can reach. */
  function LineEnd(s: string, i: nat): (e: nat)
    requires i <= |s|
    ensures i <= e <= |s|
    ensures e < |s| ==> s[e] == '\n'
    ensures forall k | i <= k < e :: s[k] != '\n'
    decreases |s| - i
  {
    if i < |s| && s[i] != '\n' then LineEnd(s, i + 1) else i
  }

  /**
   * `.*after` then the window and capture, with `.*` ending at `j` first and giving back one
   * character at a time down to `lo`.
   */
  function GapMatch(s: string, after: string, lo: nat, j: nat): Option<string>
    requires lo <= j
    decreases j - lo
  {
    var here := if OccursAt(s, after, j) then CaptureFrom(s, j + |after|) else None;
    if here.Some? || j == lo then here else GapMatch(s, after, lo, j - 1)
  }

  /** The captured group of a match of the whole pattern starting at `p`, if there is one. */
  function MatchAt(s: string, kw: Keyword, p: nat): Option<string>
    requires p <= |s|
  {
    match kw
    case Lit(w) =>
      if OccursAt(s, w, p) then CaptureFrom(s, p + |w|) else None
    case Gap(before, after) =>
      if OccursAt(s, before, p) then GapMatch(s, after, p + |before|, LineEnd(s, p + |before|)) else None
  }

  /** Where the first match of `re.findall` starts: the leftmost position with a match. */
  function LeftmostMatch(s: string, kw: Keyword, p: nat): (r: Option<nat>)
    requires p <= |s|
    ensures r.Some? ==> p <= r.value <= |s|
  {
    FirstHit(Hits(s, kw), p)
  }

  /** For each position of the text, whether the pattern matches there. */
  function Hits(s: string, kw: Keyword): (h: seq<bool>)
    ensures |h| == |s| + 1
  {
    seq(|s| + 1, k requires 0 <= k <= |s| => MatchAt(s, kw, k).Some?)
  }

  /** The first position from `p` on that holds, scanning left to right. */
  function FirstHit(h: seq<bool>, p: nat): (r: Option<nat>)
    requires p <= |h|
    ensures r.Some? ==> p <= r.value < |h|
    decreases |h| - p
  {
    if p == |h| then None
    else if h[p] then Some(p)
    else FirstHit(h, p + 1)
  }

  /** The scan finds a position that holds, none earlier holds, and `None` means none does. */
  lemma {:induction false} FirstHitIsFirst(h: seq<bool>, p: nat)
    requires p <= |h|
    ensures FirstHit(h, p).Some? ==> h[FirstHit(h, p).value]
    ensures FirstHit(h, p).Some? ==> forall k | p <= k < FirstHit(h, p).value :: !h[k]
    ensures FirstHit(h, p).None? ==> forall k | p <= k < |h| :: !h[k]
    decreases |h| - p
  {
    if p < |h| && !h[p] {
      FirstHitIsFirst(h, p + 1);
    }
  }

  /** The position found has a match, no earlier one does, and `None` means none at all. */
  lemma LeftmostMatchIsLeftmost(s: string, kw: Keyword, p: nat)
    requires p <= |s|
    ensures LeftmostMatch(s, kw, p).Some? ==> MatchAt(s, kw, LeftmostMatch(s, kw, p).value).Some?
    ensures LeftmostMatch(s, kw, p).Some? ==>
      forall k | p <= k < LeftmostMatch(s, kw, p).value :: MatchAt(s, kw, k).None?
    ensures LeftmostMatch(s, kw, p).None? ==> forall k | p <= k <= |s| :: MatchAt(s, kw, k).None?
  {
    var h := Hits(s, kw);
    FirstHitIsFirst(h, p);
    assert forall k | 0 <= k <= |s| :: h[k] == MatchAt(s, kw, k).Some?;
  }

  /**
   * The magnitude heuristic: above 1e6 the figure is taken to be in yuan, below 1e4 in units of
   * 1e8 yuan; in between it is kept.
   */
  function UnitScale(v: real): real {
    if v > 1000000.0 then v else if v < 10000.0 then v * 100000000.0 else v
  }

  /** The group `re.findall(...)[0]` holds, if the keyword matches at all. */
  function FirstCapture(s: string, kw: Keyword): Option<string> {
    match LeftmostMatch(s, kw, 0)
    case None => None
    case Some(p) => MatchAt(s, kw, p)
  }

  /** What one keyword yields: its first capture, commas removed, through `float`, then scaled. */
  function KeywordValue(s: string, kw: Keyword): Option<real> {
    match FirstCapture(s, kw)
    case None => None
    case Some(c) =>
      match ParseFloat(Without(c, ','))
      case None => None
      case Some(v) => Some(UnitScale(v))
  }

  /** A field's value in the text: that of the first keyword yielding one. */
  function FieldValue(s: string, keywords: seq<Keyword>): Option<real>
    decreases |keywords|
  {
    if keywords == [] then None
    else
      match KeywordValue(s, keywords[0])
      case Some(v) => Some(v)
      case None => FieldValue(s, keywords[1..])
  }

  /**
   * A field has no value exactly when no keyword yields one; otherwise its value is that of
   * a keyword every earlier keyword of which yields nothing.
   */
  lemma {:induction false} FieldValueIsFirst(s: string, keywords: seq<Keyword>)
    ensures FieldValue(s, keywords).None? <==> forall k | 0 <= k < |keywords| :: KeywordValue(s, keywords[k]).None?
    ensures FieldValue(s, keywords).Some? ==>
      exists j | 0 <= j < |keywords| ::
        KeywordValue(s, keywords[j]) == FieldValue(s, keywords) && forall k | 0 <= k < j :: KeywordValue(s, keywords[k]).None?
    decreases |keywords|
  {
    if keywords != [] {
      var rest := keywords[1..];
      FieldValueIsFirst(s, rest);
      assert forall k | 0 <= k < |rest| :: rest[k] == keywords[k + 1];
      if KeywordValue(s, keywords[0]).None? && FieldValue(s, rest).Some? {
        var j :| 0 <= j < |rest| &&
          KeywordValue(s, rest[j]) == FieldValue(s, rest) && forall k | 0 <= k < j :: KeywordValue(s, rest[k]).None?;
        assert forall k | 0 <= k < j + 1 :: KeywordValue(s, keywords[k]).None? by {
          forall k | 0 <= k < j + 1
            ensures KeywordValue(s, keywords[k]).None?
          {
            if k > 0 {
              assert keywords[k] == rest[k - 1];
            }
          }
        }
        assert KeywordValue(s, keywords[j + 1]) == FieldValue(s, keywords);
      }
      if FieldValue(s, keywords).None? {
        forall k | 0 <= k < |keywords|
          ensures KeywordValue(s, keywords[k]).None?
        {
          if k > 0 {
            assert keywords[k] == rest[k - 1];
          }
        }
      }
    }
  }

  /** The figures `_extract_from_txt` finds; an unreadable file (`None`) yields none. */
  function Extracted(text: Option<string>): (r: map<string, real>)
    ensures r.Keys <= CriticalFields.Keys
    ensures text.None? ==> r == map[]
  {
    match text
    case None => map[]
    case Some(s) => ExtractedFrom(s, CriticalFields)
  }

  /** The fields of `rules` the text yields a value for, with those values. */
  function ExtractedFrom(s: string, rules: map<string, FieldRule>): (r: map<string, real>)
    ensures r.Keys <= rules.Keys
  {
    map f | f in rules && FieldValue(s, rules[f].keywords).Some? :: FieldValue(s, rules[f].keywords).value
  }

  /**
   * The inner loop of `_extract_from_txt` for one field: a keyword without a match, or whose
   * first capture `float` rejects, moves on to the next; the first value found ends the loop.
   */
  method SearchKeywords(s: string, keywords: seq<Keyword>) returns (found: Option<real>)
    ensures found == FieldValue(s, keywords)
  {
    var j := 0;
    while j < |keywords|
      invariant 0 <= j <= |keywords|
      invariant FieldValue(s, keywords[j..]) == FieldValue(s, keywords)
    {
      var value := TryKeyword(s, keywords[j]);
      FieldValueStep(s, keywords, j);
      if value.Some? {
        return value;
      }
      j := j + 1;
    }
    assert keywords[j..] == [];
    return None;
  }

  /** One pass of the keyword loop: search, the first capture, commas removed, `float`, the scale. */
  method TryKeyword(s: string, keyword: Keyword) returns (value: Option<real>)
    ensures value == KeywordValue(s, keyword)
  {
    var first := FirstCapture(s, keyword);
    if first.None? {
      return None;
    }
    var valueStr := Without(first.value, ',');
    var parsed := ParseFloat(valueStr);
    if parsed.None? {
      return None;
    }
    var v := Rescale(parsed.value);
    return Some(v);
  }

  /** The magnitude test of `_extract_from_txt` on one parsed figure. */
  method Rescale(parsed: real) returns (v: real)
    ensures v == UnitScale(parsed)
    ensures parsed < 10000.0 ==> v == parsed * 100000000.0
    ensures parsed >= 10000.0 ==> v == parsed
  {
    v := parsed;
    if v > 1000000.0 {
      // already in yuan
    } else if v < 10000.0 {
      v := v * 100000000.0;
    }
  }

  /** The keywords from `j` on yield the `j`-th keyword's value, else those from `j + 1` on. */
  lemma FieldValueStep(s: string, keywords: seq<Keyword>, j: nat)
    requires j < |keywords|
    ensures FieldValue(s, keywords[j..]) ==
      if KeywordValue(s, keywords[j]).Some? then KeywordValue(s, keywords[j]) else FieldValue(s, keywords[j + 1..])
  {
    assert keywords[j..][0] == keywords[j] && keywords[j..][1..] == keywords[j + 1..];
  }

  /** `_extract_from_txt` on the file's content (`None`: the file could not be read). */
  method ExtractFromText(text: Option<string>) returns (extracted: map<string, real>)
    ensures extracted == Extracted(text)
  {
    extracted := map[];
    if text.None? {
      return;
    }
    FieldOrderCoversRules();
    extracted := ExtractFields(text.value, CriticalFields, FieldOrder);
  }

  /** The loop of `_extract_from_txt` over the fields, visited in `order`. */
  method ExtractFields(s: string, rules: map<string, FieldRule>, order: seq<string>) returns (extracted: map<string, real>)
    requires forall f | f in order :: f in rules
    requires forall f | f in rules :: f in order
    ensures extracted == ExtractedFrom(s, rules)
  {
    ghost var values := FieldValues(s, rules);
    extracted := map[];
    var i := 0;
    while i < |order|
      invariant 0 <= i <= |order|
      invariant extracted == PresentAmong(values, order[..i])
    {
      var field := order[i];
      var found := ValueOfField(s, rules, field);
      PresentAmongStep(values, order, i);
      if found.Some? {
        extracted := extracted[field := found.value];
      }
      i := i + 1;
    }
    assert order[..i] == order;
    PresentAmongAll(values, order);
    ExtractedFromValues(s, rules);
  }

  /** The search of one field's keywords. */
  method ValueOfField(s: string, rules: map<string, FieldRule>, field: string) returns (found: Option<real>)
    requires field in rules
    ensures field in FieldValues(s, rules) && found == FieldValues(s, rules)[field]
  {
    found := SearchKeywords(s, rules[field].keywords);
  }

  /** The fields among `fields` with a value, and their values. */
  function PresentAmong(values: map<string, Option<real>>, fields: seq<string>): map<string, real> {
    map f | f in fields && f in values && values[f].Some? :: values[f].value
  }

  /** Visiting one more field adds it exactly when it has a value. */
  lemma PresentAmongStep(values: map<string, Option<real>>, order: seq<string>, i: nat)
    requires i < |order| && order[i] in values
    ensures PresentAmong(values, order[..i + 1]) ==
      if values[order[i]].Some? then PresentAmong(values, order[..i])[order[i] := values[order[i]].value]
      else PresentAmong(values, order[..i])
  {
    assert order[..i + 1] == order[..i] + [order[i]];
  }

  /** Once every field has been visited, the fields with a value are all collected. */
  lemma PresentAmongAll(values: map<string, Option<real>>, order: seq<string>)
    requires forall f | f in values :: f in order
    ensures PresentAmong(values, order) == Present(values)
  {
  }

  /** Each field's value in the text. */
  function FieldValues(s: string, rules: map<string, FieldRule>): (r: map<string, Option<real>>)
    ensures r.Keys == rules.Keys
  {
    map f | f in rules :: FieldValue(s, rules[f].keywords)
  }

  /** The fields with a value, and their values. */
  function Present(values: map<string, Option<real>>): map<string, real> {
    map f | f in values && values[f].Some? :: values[f].value
  }

  lemma ExtractedFromValues(s: string, rules: map<string, FieldRule>)
    ensures ExtractedFrom(s, rules) == Present(FieldValues(s, rules))
  {
  }

  // ---------------------------------------------------------------------------------------
  // Per-field comparison and the record verdict
  // ---------------------------------------------------------------------------------------

  function Abs(x: real): real { if x < 0.0 then -x else x }

  function Max(a: real, b: real): real { if a < b then b else a }

  /** `abs(a - b) / max(abs(a), abs(b))`, defined unless both are zero. */
  function Deviation(a: real, b: real): (r: real)
    requires a != 0.0 || b != 0.0
    ensures r >= 0.0
  {
    Abs(a - b) / Max(Abs(a), Abs(b))
  }

  /** One entry of `results`; a compared field carries both figures divided by the unit. */
  datatype FieldDetail =
    | MissingAkshare
    | MissingPdf
    | Compared(pass: bool, akshare: real, pdf: real, diffPct: real)

  function StatusName(d: FieldDetail): string {
    match d
    case MissingAkshare => "MISSING_AKSHARE"
    case MissingPdf => "MISSING_PDF"
    case Compared(pass, _, _, _) => if pass then "PASS" else "CONFLICT"
  }

  /**
   * The comparison of one field; `None` when Python raises (a stored text value, or both
   * figures zero, which divides by zero).
   */
  function Compare(ak: SqlValue, pdf: Option<real>, unit: real): (r: Option<FieldDetail>)
    requires unit != 0.0
    ensures ak.SqlNull? <==> r == Some(MissingAkshare)
    ensures !ak.SqlNull? && pdf.None? <==> r == Some(MissingPdf)
    ensures r.Some? && r.value.Compared? ==>
      Numeric(ak).Some? && pdf.Some? && (Numeric(ak).value != 0.0 || pdf.value != 0.0) &&
      r.value.pass == (Deviation(Numeric(ak).value, pdf.value) < Tolerance) &&
      r.value.akshare * unit == Numeric(ak).value && r.value.pdf * unit == pdf.value &&
      r.value.diffPct == Deviation(Numeric(ak).value, pdf.value) * 100.0
    ensures r.None? <==>
      !ak.SqlNull? && pdf.Some? && (Numeric(ak).None? || (Numeric(ak).value == 0.0 && pdf.value == 0.0))
  {
    if ak.SqlNull? then Some(MissingAkshare)
    else if pdf.None? then Some(MissingPdf)
    else match Numeric(ak)
      case None => None
      case Some(a) =>
        var b := pdf.value;
        if a == 0.0 && b == 0.0 then None
        else
          var ratio := Deviation(a, b);
          Some(Compared(ratio < Tolerance, a / unit, b / unit, ratio * 100.0))
  }

  /** The strict 2% rule, without the division: a field passes iff the gap is under 2% of the larger figure. */
  lemma PassIffWithinTolerance(a: real, b: real)
    requires a != 0.0 || b != 0.0
    ensures Deviation(a, b) < Tolerance <==> Abs(a - b) < Tolerance * Max(Abs(a), Abs(b))
  {
    QuotientBelow(Abs(a - b), Max(Abs(a), Abs(b)), Tolerance);
  }

  lemma QuotientBelow(d: real, m: real, bound: real)
    requires m > 0.0
    ensures d / m < bound <==> d < bound * m
  {
    var x := d / m;
    assert x * m == d;
    assert d - bound * m == (x - bound) * m;
    ProductSign(x - bound, m);
  }

  lemma ProductSign(y: real, m: real)
    requires m > 0.0
    ensures y < 0.0 <==> y * m < 0.0
  {
  }

  /** The deviation does not depend on which side is the provider's. */
  lemma DeviationSymmetric(a: real, b: real)
    requires a != 0.0 || b != 0.0
    ensures Deviation(a, b) == Deviation(b, a)
  {
    assert Abs(a - b) == Abs(b - a);
    assert Max(Abs(a), Abs(b)) == Max(Abs(b), Abs(a));
  }

  /** A deviation of exactly 2% is a conflict. */
  lemma ExactlyTwoPercentConflicts()
    ensures Compare(Real(100.0), Some(98.0), 100000000.0) == Some(Compared(false, 100.0 / 100000000.0, 98.0 / 100000000.0, 2.0))
  {
    assert Deviation(100.0, 98.0) == 0.02;
  }

  /** Identical figures pass, whatever their sign. */
  lemma EqualFiguresPass(a: real)
    requires a != 0.0
    ensures Compare(Real(a), Some(a), 1.0) == Some(Compared(true, a, a, 0.0))
  {
    assert Deviation(a, a) == 0.0;
  }

  /** The comparison of a critical field against the extracted figures. */
  function DetailOf(akRow: Row, pdf: map<string, real>, f: string): Option<FieldDetail>
    requires f in CriticalFields
  {
    Compare(Get(akRow, f), if f in pdf then Some(pdf[f]) else None, CriticalFields[f].unit)
  }

  /** The `results` dict over `fields`, in order; `None` when a comparison raises. */
  function DetailsOf(akRow: Row, pdf: map<string, real>, fields: seq<string>): (r: Option<seq<(string, FieldDetail)>>)
    requires forall f | f in fields :: f in CriticalFields
    ensures r.Some? ==> |r.value| == |fields|
    ensures r.Some? ==> forall i | 0 <= i < |fields| ::
      r.value[i].0 == fields[i] && DetailOf(akRow, pdf, fields[i]) == Some(r.value[i].1)
    ensures r.None? <==> exists i | 0 <= i < |fields| :: DetailOf(akRow, pdf, fields[i]).None?
    decreases |fields|
  {
    if fields == [] then Some([])
    else
      var f := fields[|fields| - 1];
      match DetailsOf(akRow, pdf, fields[..|fields| - 1])
      case None => None
      case Some(rest) =>
        match DetailOf(akRow, pdf, f)
        case None => None
        case Some(d) => Some(rest + [(f, d)])
  }

  /** `has_conflict` after the loop: some field is in CONFLICT. */
  predicate HasConflict(details: seq<(string, FieldDetail)>) {
    exists i | 0 <= i < |details| :: StatusName(details[i].1) == "CONFLICT"
  }

  /** The loop of `validate_report` over the critical fields, building `results`. */
  method CompareFields(akRow: Row, pdf: map<string, real>) returns (results: seq<(string, FieldDetail)>, hasConflict: bool, raised: bool)
    ensures raised <==> DetailsOf(akRow, pdf, FieldOrder).None?
    ensures !raised ==> DetailsOf(akRow, pdf, FieldOrder) == Some(results) && hasConflict == HasConflict(results)
  {
    FieldOrderCoversRules();
    results, hasConflict, raised := CompareEach(akRow, pdf, FieldOrder);
  }

  /** The comparison loop over `fields`, in order, stopping at the first field that raises. */
  method CompareEach(akRow: Row, pdf: map<string, real>, fields: seq<string>)
    returns (results: seq<(string, FieldDetail)>, hasConflict: bool, raised: bool)
    requires forall f | f in fields :: f in CriticalFields
    ensures raised <==> DetailsOf(akRow, pdf, fields).None?
    ensures !raised ==> DetailsOf(akRow, pdf, fields) == Some(results) && hasConflict == HasConflict(results)
  {
    results := [];
    hasConflict := false;
    raised := false;
    var i := 0;
    while i < |fields|
      invariant 0 <= i <= |fields|
      invariant DetailsOf(akRow, pdf, fields[..i]) == Some(results)
      invariant hasConflict == HasConflict(results)
    {
      var field := fields[i];
      var detail := DetailOf(akRow, pdf, field);
      DetailsOfStep(akRow, pdf, fields, i);
      if detail.None? {
        raised := true;
        DetailsOfRaised(akRow, pdf, fields, i + 1);
        return;
      }
      HasConflictStep(results, field, detail.value);
      if StatusName(detail.value) == "CONFLICT" {
        hasConflict := true;
      }
      results := results + [(field, detail.value)];
      i := i + 1;
    }
    assert fields[..i] == fields;
  }

  /** One more field: the details so far, then that field's, unless it raises. */
  lemma DetailsOfStep(akRow: Row, pdf: map<string, real>, fields: seq<string>, i: nat)
    requires forall f | f in fields :: f in CriticalFields
    requires i < |fields|
    ensures DetailsOf(akRow, pdf, fields[..i + 1]) ==
      match DetailsOf(akRow, pdf, fields[..i])
      case None => None
      case Some(rest) =>
        match DetailOf(akRow, pdf, fields[i])
        case None => None
        case Some(d) => Some(rest + [(fields[i], d)])
  {
    assert fields[..i + 1][..i] == fields[..i];
  }

  /** Once a prefix raises, the whole loop does. */
  lemma DetailsOfRaised(akRow: Row, pdf: map<string, real>, fields: seq<string>, n: nat)
    requires forall f | f in fields :: f in CriticalFields
    requires n <= |fields| && DetailsOf(akRow, pdf, fields[..n]).None?
    ensures DetailsOf(akRow, pdf, fields).None?
  {
    var i :| 0 <= i < n && DetailOf(akRow, pdf, fields[..n][i]).None?;
    assert fields[..n][i] == fields[i];
  }

  /** Appending one entry adds a conflict exactly when that entry is one. */
  lemma HasConflictStep(results: seq<(string, FieldDetail)>, field: string, detail: FieldDetail)
    ensures HasConflict(results + [(field, detail)]) <==> HasConflict(results) || StatusName(detail) == "CONFLICT"
  {
    var more := results + [(field, detail)];
    assert more[|results|] == (field, detail);
    if HasConflict(results) {
      var i :| 0 <= i < |results| && StatusName(results[i].1) == "CONFLICT";
      assert more[i] == results[i];
    }
  }

  // ---------------------------------------------------------------------------------------
  // validate_report
  // ---------------------------------------------------------------------------------------

  /**
   * What `validate_report` reads besides financial_reports_raw: the txt_path stored in
   * financial_reports_files for (stock_code, report_period), absent when there is no such row
   * or it is NULL; and the file system, where a path that exists maps to its text, or to
   * `None` when it cannot be read as UTF-8.
   */
  datatype Documents = Documents(txtPaths: map<Key, string>, files: map<string, Option<string>>)

  /** The returned dict's status and details; `Raised` when an exception escapes. */
  datatype Report =
    | NoData
    | NoFile
    | Checked(conflict: bool, details: seq<(string, FieldDetail)>)
    | Raised

  function QualityName(conflict: bool): string {
    if conflict then "CONFLICT" else "VERIFIED"
  }

  /** The txt path is missing or empty, or no file exists there. */
  predicate NoDocument(key: Key, docs: Documents) {
    key !in docs.txtPaths || docs.txtPaths[key] == "" || docs.txtPaths[key] !in docs.files
  }

  /** The report `validate_report` returns, given the table as it stands. */
  function ReportOf(schema: Schema, rows: map<Key, Row>, key: Key, docs: Documents): (r: Report)
    ensures r == NoData <==> key !in rows
    ensures r == NoFile <==> key in rows && NoDocument(key, docs)
    ensures r.Checked? ==>
      |r.details| == |FieldOrder| &&
      (forall i | 0 <= i < |FieldOrder| :: r.details[i].0 == FieldOrder[i]) &&
      (r.conflict <==> exists i | 0 <= i < |FieldOrder| :: StatusName(r.details[i].1) == "CONFLICT")
  {
    FieldOrderCoversRules();
    if key !in rows then NoData
    else if NoDocument(key, docs) then NoFile
    else
      var pdf := Extracted(docs.files[docs.txtPaths[key]]);
      match DetailsOf(rows[key], pdf, FieldOrder)
      case None => Raised
      case Some(details) =>
        if "data_quality" in schema.columns then Checked(HasConflict(details), details) else Raised
  }

  /** The table after `validate_report`: only a completed check writes the verdict. */
  function QualityEffect(rows: map<Key, Row>, key: Key, report: Report): map<Key, Row> {
    if report.Checked? then SetColumn(rows, key, "data_quality", Text(QualityName(report.conflict))) else rows
  }

  /**
   * `validate_report(stock_code, report_period)` against financial_reports_raw; the returned
   * timestamp is left out.
   */
  method ValidateReport(t: Table, stock: string, period: string, docs: Documents) returns (report: Report)
    requires t.Valid() && t.schema.unique == ["stock_code", "report_period"]
    modifies t
    ensures t.Valid()
    ensures report == ReportOf(t.schema, old(t.rows), [stock, period], docs)
    ensures t.rows == QualityEffect(old(t.rows), [stock, period], report)
  {
    var key := [stock, period];
    if key !in t.rows {
      return NoData;
    }
    var akRow := t.rows[key];
    if key !in docs.txtPaths || docs.txtPaths[key] == "" || docs.txtPaths[key] !in docs.files {
      return NoFile;
    }
    var pdf := ExtractFromText(docs.files[docs.txtPaths[key]]);
    var results, hasConflict, raised := CompareFields(akRow, pdf);
    if raised {
      return Raised;
    }
    var ok := UpdateQualityFlag(t, stock, period, QualityName(hasConflict));
    if !ok {
      return Raised;
    }
    report := Checked(hasConflict, results);
  }

  /** `_update_quality_flag`: sets data_quality, with no look at is_locked. */
  method UpdateQualityFlag(t: Table, stock: string, period: string, status: string) returns (ok: bool)
    requires t.Valid() && t.schema.unique == ["stock_code", "report_period"]
    modifies t
    ensures t.Valid()
    ensures ok == ("data_quality" in t.schema.columns)
    ensures t.rows == if ok then SetColumn(old(t.rows), [stock, period], "data_quality", Text(status)) else old(t.rows)
  {
    ok := t.Update([stock, period], "data_quality", Text(status));
  }

  // ---------------------------------------------------------------------------------------
  // Properties
  // ---------------------------------------------------------------------------------------

  /**
   * A field whose provider value is NULL is MISSING_AKSHARE whatever the document says;
   * otherwise a field the document lacks is MISSING_PDF.
   */
  lemma MissingSidesFirst(akRow: Row, pdf: map<string, real>, f: string)
    requires f in CriticalFields
    ensures Get(akRow, f) == SqlNull ==> DetailOf(akRow, pdf, f) == Some(MissingAkshare)
    ensures Get(akRow, f) != SqlNull && f !in pdf ==> DetailOf(akRow, pdf, f) == Some(MissingPdf)
  {
  }

  /** A record with nothing comparable is still VERIFIED. */
  lemma AllMissingIsVerified(schema: Schema, rows: map<Key, Row>, key: Key, docs: Documents)
    requires ReportOf(schema, rows, key, docs).Checked?
    requires forall i | 0 <= i < |FieldOrder| :: !ReportOf(schema, rows, key, docs).details[i].1.Compared?
    ensures !ReportOf(schema, rows, key, docs).conflict
  {
  }

  /**
   * The verdict write touches data_quality of the validated row only: is_locked and every
   * financial figure keep their values, and other rows are untouched.
   */
  lemma QualityWriteOnlyTouchesQuality(rows: map<Key, Row>, key: Key, report: Report, c: string)
    requires c != "data_quality"
    ensures forall k | k in rows ::
      k in QualityEffect(rows, key, report) && Get(QualityEffect(rows, key, report)[k], c) == Get(rows[k], c)
    ensures QualityEffect(rows, key, report).Keys == rows.Keys
  {
  }

  /** A locked record is re-flagged like any other. */
  lemma QualityWriteIgnoresLock(rows: map<Key, Row>, key: Key, conflict: bool, details: seq<(string, FieldDetail)>)
    requires key in rows && IsLocked(rows[key])
    ensures Get(QualityEffect(rows, key, Checked(conflict, details))[key], "data_quality") == Text(QualityName(conflict))
    ensures IsLocked(QualityEffect(rows, key, Checked(conflict, details))[key])
  {
  }

  /** The heuristic leaves a value alone exactly when it is at least 1e4 or zero. */
  lemma UnitScaleFixedPoints(v: real)
    ensures UnitScale(v) == v <==> v >= 10000.0 || v == 0.0
  {
  }

  /** A skipped stretch of the window brings the capture to the first digit or comma. */
  lemma {:induction false} CaptureStartSkips(s: string, from: nat, budget: nat, k: nat)
    requires from + k < |s| && k <= budget && DigitOrComma(s[from + k])
    requires forall j | from <= j < from + k :: !DigitOrComma(s[j])
    ensures CaptureStart(s, from, budget) == Some(from + k)
    decreases k
  {
    if k > 0 {
      CaptureStartSkips(s, from + 1, budget - 1, k - 1);
    }
  }

  lemma {:induction false} RunToEnd(s: string, i: nat)
    requires i <= |s|
    requires forall k | i <= k < |s| :: DigitOrComma(s[k])
    ensures DigitCommaRunEnd(s, i) == |s|
    decreases |s| - i
  {
    if i < |s| {
      RunToEnd(s, i + 1);
    }
  }

  lemma {:induction false} GroupedDigitsOrCommas(d: string)
    requires AllDigits(d)
    ensures |WithThousands(d)| >= |d|
    ensures forall k | 0 <= k < |WithThousands(d)| :: DigitOrComma(WithThousands(d)[k])
    decreases |d|
  {
    if |d| > 3 {
      GroupedDigitsOrCommas(d[..|d| - 3]);
    }
  }

  /**
   * A whole number printed with thousands separators after a keyword and a short gap of
   * non-digits is read back as that number (then scaled by the heuristic).
   */
  lemma ReadsBackPrintedNumber(w: string, gap: string, n: nat)
    requires |gap| <= 20 && forall k | 0 <= k < |gap| :: !DigitOrComma(gap[k])
    ensures KeywordValue(w + gap + WithThousands(NatToString(n)), Lit(w)) == Some(UnitScale(n as real))
  {
    var digits := NatToString(n);
    var printed := WithThousands(digits);
    var s := w + gap + printed;
    GroupedDigitsOrCommas(digits);
    assert s[..|w|] == w;
    assert OccursAt(s, w, 0);
    var q := |w| + |gap|;
    assert s[q] == printed[0];
    CaptureStartSkips(s, |w|, 20, |gap|);
    RunToEnd(s, q);
    assert s[q..] == printed;
    assert CaptureAt(s, q) == printed;
    assert CaptureFrom(s, |w|) == Some(printed);
    assert MatchAt(s, Lit(w), 0) == Some(printed);
    assert LeftmostMatch(s, Lit(w), 0) == Some(0);
    WithThousandsWithout(digits);
    ParseFloatNat(n);
  }
}
