/**
 * The pure rules of the cninfo report downloader: how a stock code is classified and routed,
 * how an announcement title is cleaned, filtered and turned into a file name, a report period
 * and a report type, and which row each downloaded file leaves in financial_reports_files.
 * What the network, the file system and the PDF parser report for an announcement is given
 * to the model as data.
 */
module PdfDownloader {
  import opened Wrappers
  import opened Texts
  import opened Dates
  import opened Store

  datatype StockType = A | HK | US | Unknown

  /** `_get_stock_type`: six digits are an A share, five a Hong Kong share, letters a US ticker. */
  function StockTypeOf(code: string): (r: StockType)
    ensures r == A <==> IsDigitString(code) && |code| == 6
    ensures r == HK <==> IsDigitString(code) && |code| == 5
    ensures r == US <==> !IsDigitString(code) && IsAlphaString(code)
  {
    if IsDigitString(code) then
      if |code| == 6 then A
      else if |code| == 5 then HK
      else Unknown
    else if IsAlphaString(code) then US
    else Unknown
  }

  /** Where `download` sends a stock: the cninfo query (with its column and categories) or SEC. */
  datatype Route = Cninfo(column: string, category: string) | Sec | SecMissing | NotSupported

  const ACategories := "category_ndbg_szsh;category_bndbg_szsh;category_yjdbg_szsh;category_sjdbg_szsh"
  const HKCategories := "category_ndbg_hkhk;category_bndbg_hkhk"

  /** The cninfo `column` parameter: Shanghai for A-share codes starting with 6, else Shenzhen; HKEX for the rest. */
  function Column(code: string, t: StockType): string {
    if t == A then (if StartsWith(code, "6") then "sse" else "szse") else "hke"
  }

  function RouteOf(code: string, hasSec: bool): Route {
    match StockTypeOf(code)
    case A => Cninfo(Column(code, A), ACategories)
    case HK => Cninfo(Column(code, HK), HKCategories)
    case US => if hasSec then Sec else SecMissing
    case Unknown => NotSupported
  }

  /** Only five- and six-digit codes go to cninfo; Shanghai is chosen exactly for six-digit codes led by 6. */
  lemma RouteCases(code: string, hasSec: bool)
    ensures RouteOf(code, hasSec).Cninfo? <==> IsDigitString(code) && (|code| == 5 || |code| == 6)
    ensures RouteOf(code, hasSec) == Cninfo("sse", ACategories) <==> IsDigitString(code) && |code| == 6 && code[0] == '6'
    ensures RouteOf(code, hasSec) == Cninfo("hke", HKCategories) <==> IsDigitString(code) && |code| == 5
    ensures RouteOf(code, hasSec).Sec? <==> hasSec && !IsDigitString(code) && IsAlphaString(code)
  {
    if IsDigitString(code) && |code| == 6 {
      assert StartsWith(code, "6") <==> code[0] == '6';
    }
  }

  /** A digit string of any other length is neither A, HK nor US. */
  lemma OtherDigitCodesUnknown()
    ensures StockTypeOf("1234") == Unknown
  {
    assert IsDigitString("1234");
  }

  /** Search highlighting removed: every `<em>`, then every `</em>`. */
  function CleanTitle(title: string): string {
    ReplaceAll(ReplaceAll(title, "<em>", ""), "</em>", "")
  }

  /** Summaries and cancellation notices are not downloaded. */
  predicate Skipped(title: string) {
    Contains(title, "摘要") || Contains(title, "取消")
  }

  /** The title with ".pdf" appended and every '/' turned into '_'. */
  function FileName(title: string): (r: string)
    ensures forall i | 0 <= i < |r| :: r[i] != '/'
    ensures |r| == |title| + 4
  {
    ReplaceCharRemovesIt(title + ".pdf", '/', "_");
    ReplaceCharLength(title + ".pdf", '/', '_');
    ReplaceAll(title + ".pdf", "/", "_")
  }

  lemma {:induction false} ReplaceCharLength(s: string, c: char, d: char)
    ensures |ReplaceAll(s, [c], [d])| == |s|
    decreases |s|
  {
    if |s| >= 1 {
      ReplaceCharLength(s[1..], c, d);
    }
  }

  /** `re.search(r'(\d{4})年', title)` matches at `i`: four digits and then 年. */
  predicate YearAt(title: string, i: nat) {
    i + 5 <= |title| && AllDigits(title[i..i + 4]) && title[i + 4] == '年'
  }

  /** The leftmost match at or after `from`. */
  function FirstYear(title: string, from: nat): (r: Option<nat>)
    ensures r.Some? ==> from <= r.value && YearAt(title, r.value)
    ensures r.Some? ==> forall j | from <= j < r.value :: !YearAt(title, j)
    ensures r.None? ==> forall j | from <= j :: !YearAt(title, j)
    decreases |title| - from
  {
    if from + 5 > |title| then None
    else if YearAt(title, from) then Some(from)
    else FirstYear(title, from + 1)
  }

  /** The kind of report a title announces, in the order the title keywords are tried. */
  datatype Kind = ThirdQuarter | FirstQuarter | HalfYear | Annual | Unnamed

  function KindOf(title: string): (k: Kind)
    ensures k == Annual ==> Contains(title, "年度报告") || Contains(title, "年报")
    ensures k == Unnamed <==>
      !Contains(title, "第三季度") && !Contains(title, "三季报") && !Contains(title, "第一季度") &&
      !Contains(title, "一季报") && !Contains(title, "半年") && !Contains(title, "中报") &&
      !Contains(title, "年度报告") && !Contains(title, "年报")
  {
    if Contains(title, "第三季度") || Contains(title, "三季报") then ThirdQuarter
    else if Contains(title, "第一季度") || Contains(title, "一季报") then FirstQuarter
    else if Contains(title, "半年") || Contains(title, "中报") then HalfYear
    else if Contains(title, "年度报告") || Contains(title, "年报") then Annual
    else Unnamed
  }

  /** `_extract_period_from_title`: the first year in the title, closed by the kind's quarter end. */
  function PeriodFromTitle(title: string): (r: Option<string>)
    ensures r.None? <==> FirstYear(title, 0).None? || KindOf(title) == Unnamed
  {
    match FirstYear(title, 0)
    case None => None
    case Some(i) =>
      var year := title[i..i + 4];
      match KindOf(title)
      case ThirdQuarter => Some(year + "-09-30")
      case FirstQuarter => Some(year + "-03-31")
      case HalfYear => Some(year + "-06-30")
      case Annual => Some(year + "-12-31")
      case Unnamed => None
  }

  /** `_extract_type_from_title`: the same keywords, annual when none matches. */
  function TypeFromTitle(title: string): (r: string)
    ensures r in {"Q3", "Q1", "S1", "A"}
    ensures KindOf(title) == Unnamed ==> r == "A"
  {
    match KindOf(title)
    case ThirdQuarter => "Q3"
    case FirstQuarter => "Q1"
    case HalfYear => "S1"
    case Annual => "A"
    case Unnamed => "A"
  }

  /** Last day of the month each kind's period names. */
  function QuarterEnd(k: Kind): (md: (int, int))
    requires k != Unnamed
  {
    match k
    case ThirdQuarter => (9, 30)
    case FirstQuarter => (3, 31)
    case HalfYear => (6, 30)
    case Annual => (12, 31)
  }

  /**
   * A period taken from a title is the last day of a quarter-end month of the title's first
   * year, and the title's report type is the type that month stands for. Only the year
   * "0000" yields a period that is not a date.
   */
  lemma PeriodMatchesType(title: string)
    requires PeriodFromTitle(title).Some?
    ensures var p := PeriodFromTitle(title).value;
      |p| == 10 && AllDigits(p[..4]) &&
      var y := DigitsValue(p[..4]);
      (ParseIso(p).Some? <==> y >= 1) &&
      (y >= 1 ==>
        var d := ParseIso(p).value;
        d.year == y && d.day == DaysInMonth(y, d.month) && ReportTypeOfMonth(d.month) == TypeFromTitle(title))
  {
    var i := FirstYear(title, 0).value;
    var k := KindOf(title);
    var p := PeriodFromTitle(title).value;
    var year := title[i..i + 4];
    var (m, dd) := QuarterEnd(k);
    var tail := Pad2(m) + "-" + Pad2(dd);
    assert p == year + "-" + tail by {
      match k
      case ThirdQuarter => assert tail == "09-30";
      case FirstQuarter => assert tail == "03-31";
      case HalfYear => assert tail == "06-30";
      case Annual => assert tail == "12-31";
    }
    QuarterEndParses(year, k);
    assert ReportTypeOfMonth(m) == TypeFromTitle(title);
  }

  /** A four-digit year closed by a kind's quarter end parses as that date, unless the year is 0. */
  lemma QuarterEndParses(year: string, k: Kind)
    requires k != Unnamed && |year| == 4 && AllDigits(year)
    ensures var p := year + "-" + (Pad2(QuarterEnd(k).0) + "-" + Pad2(QuarterEnd(k).1));
      var y := DigitsValue(year);
      |p| == 10 && p[..4] == year &&
      (ParseIso(p).Some? <==> y >= 1) &&
      (y >= 1 ==>
        ParseIso(p) == Some(Date(y, QuarterEnd(k).0, QuarterEnd(k).1)) &&
        QuarterEnd(k).1 == DaysInMonth(y, QuarterEnd(k).0))
  {
    var (m, dd) := QuarterEnd(k);
    var p := year + "-" + (Pad2(m) + "-" + Pad2(dd));
    assert p[..4] == year && p[4] == '-' && p[7] == '-';
    assert p[5..7] == Pad2(m) && p[8..] == Pad2(dd);
    Pad2Value(m);
    Pad2Value(dd);
    DigitsValueBound(year);
    assert Pow10(4) == 10000;
  }

  /** A half-year report's title also contains 年度报告; the keyword order still makes it S1. */
  lemma HalfYearTitle()
    ensures PeriodFromTitle("2023年半年度报告") == Some("2023-06-30")
    ensures TypeFromTitle("2023年半年度报告") == "S1"
  {
    var t := "2023年半年度报告";
    assert YearAt(t, 0) && t[0..4] == "2023";
    assert FirstYear(t, 0) == Some(0);
    assert OccursAt(t, "半年", 5);
    assert OccursAt(t, "年度报告", 6);
    LeadAbsent(t, "第三季度");
    LeadAbsent(t, "三季报");
    LeadAbsent(t, "第一季度");
    LeadAbsent(t, "一季报");
    assert KindOf(t) == HalfYear;
    assert PeriodFromTitle(t) == Some(t[0..4] + "-06-30");
    assert "2023" + "-06-30" == "2023-06-30";
  }

  /** A pattern whose first character is not in the text does not occur in it. */
  lemma LeadAbsent(s: string, pat: string)
    requires |pat| > 0 && forall i | 0 <= i < |s| :: s[i] != pat[0]
    ensures !Contains(s, pat)
  {
    forall i: nat | i <= |s| ensures !OccursAt(s, pat, i) {
      if i + |pat| <= |s| {
        assert s[i..i + |pat|][0] == s[i];
      }
    }
  }

  /** What the network, the file system and the PDF parser report for one announcement. */
  datatype Announcement = Announcement(
    title: string,        // announcementTitle as returned, highlighting included
    txt: Option<string>,  // the text path `parse_pdf` returns, relative to the project
    txtExists: bool,      // whether that text file exists when the row is written
    fileSize: int,        // bytes on disk, 0 when the PDF is missing
    recordedAt: string)   // `datetime.now().isoformat()` at the time of writing

  const FileUnique: seq<string> := ["stock_code", "report_period", "report_type"]

  /** One `_record_file` INSERT OR REPLACE: the key and the supplied columns. */
  datatype FileWrite = FileWrite(key: Key, row: Row)

  /**
   * The row an announcement leaves in financial_reports_files, `None` when it is skipped
   * or its title names no period.
   */
  function RecordOf(stock: string, saveDir: string, a: Announcement): Option<FileWrite>
  {
    var title := CleanTitle(a.title);
    if Skipped(title) then None
    else match PeriodFromTitle(title)
      case None => None
      case Some(period) =>
        var kind := TypeFromTitle(title);
        Some(FileWrite([stock, period, kind], FileRow(stock, period, kind, saveDir + "/" + FileName(title), a)))
  }

  /** The columns `_record_file` supplies for a downloaded announcement saved at `path`. */
  function FileRow(stock: string, period: string, kind: string, path: string, a: Announcement): Row {
    map[
      "stock_code" := Text(stock),
      "report_period" := Text(period),
      "report_type" := Text(kind),
      "file_type" := Text("PDF"),
      "file_path" := Text(path),
      "txt_path" := (if a.txt.Some? then Text(a.txt.value) else SqlNull),
      "download_date" := Text(a.recordedAt),
      "file_size" := Int(a.fileSize),
      "parse_status" := Text(if a.txt.Some? && a.txtExists then "SUCCESS" else "PENDING")]
  }

  /**
   * A row is written exactly when the cleaned title is kept and names a period; it is keyed by
   * stock, period and type, and its status says whether a text file exists.
   */
  lemma RecordOfSpec(stock: string, saveDir: string, a: Announcement)
    ensures var r := RecordOf(stock, saveDir, a);
      var title := CleanTitle(a.title);
      (r.Some? <==> !Skipped(title) && PeriodFromTitle(title).Some?) &&
      (r.Some? ==>
        r.value.key == [stock, PeriodFromTitle(title).value, TypeFromTitle(title)] &&
        Get(r.value.row, "file_type") == Text("PDF") &&
        Get(r.value.row, "file_path") == Text(saveDir + "/" + FileName(title)) &&
        (Get(r.value.row, "parse_status") == Text("SUCCESS") <==> a.txt.Some? && a.txtExists) &&
        (Get(r.value.row, "txt_path") == SqlNull <==> a.txt.None?))
  {
  }

  /** The written row is filed under its own stock, period and type. */
  lemma RecordKeyMatches(schema: Schema, stock: string, saveDir: string, a: Announcement)
    requires schema.unique == FileUnique && RecordOf(stock, saveDir, a).Some?
    ensures KeyMatches(schema, RecordOf(stock, saveDir, a).value.key, RecordOf(stock, saveDir, a).value.row)
  {
    var title := CleanTitle(a.title);
    FileRowKey(schema, stock, PeriodFromTitle(title).value, TypeFromTitle(title), saveDir + "/" + FileName(title), a);
  }

  /** The supplied columns carry the stock, period and type the row is filed under. */
  lemma FileRowKey(schema: Schema, stock: string, period: string, kind: string, path: string, a: Announcement)
    requires schema.unique == FileUnique
    ensures KeyMatches(schema, [stock, period, kind], FileRow(stock, period, kind, path, a))
  {
    var row := FileRow(stock, period, kind, path, a);
    assert Get(row, "stock_code") == Text(stock);
    assert Get(row, "report_period") == Text(period);
    assert Get(row, "report_type") == Text(kind);
  }

  /** The `_record_file` call, if any, each announcement leads to. */
  function Records(stock: string, saveDir: string, anns: seq<Announcement>): (r: seq<Option<FileWrite>>)
    ensures |r| == |anns| && forall i | 0 <= i < |anns| :: r[i] == RecordOf(stock, saveDir, anns[i])
  {
    seq(|anns|, i requires 0 <= i < |anns| => RecordOf(stock, saveDir, anns[i]))
  }

  /**
   * The files table after the calls in order: each is an INSERT OR REPLACE committed on
   * its own; one that fails is reported and the loop goes on.
   */
  function Apply(schema: Schema, rows: map<Key, Row>, ws: seq<Option<FileWrite>>): map<Key, Row>
    decreases |ws|
  {
    if ws == [] then rows
    else
      var before := Apply(schema, rows, ws[..|ws| - 1]);
      match ws[|ws| - 1]
      case None => before
      case Some(w) => Upsert(schema, before, w.key, w.row)
  }

  /** The files table after a run of announcements. */
  function Recorded(schema: Schema, rows: map<Key, Row>, stock: string, saveDir: string, anns: seq<Announcement>): map<Key, Row> {
    Apply(schema, rows, Records(stock, saveDir, anns))
  }

  /** A row no call names is left as it was. */
  lemma {:induction false} ApplyKeepsUnnamed(schema: Schema, rows: map<Key, Row>, ws: seq<Option<FileWrite>>, k: Key)
    requires k in rows && forall i | 0 <= i < |ws| :: ws[i].None? || ws[i].value.key != k
    ensures k in Apply(schema, rows, ws) && Apply(schema, rows, ws)[k] == rows[k]
    decreases |ws|
  {
    if ws != [] {
      ApplyKeepsUnnamed(schema, rows, ws[..|ws| - 1], k);
    }
  }

  /** A call the table accepts leaves its row unless a later call names the same key. */
  lemma {:induction false} ApplyLastWins(schema: Schema, rows: map<Key, Row>, ws: seq<Option<FileWrite>>, i: nat)
    requires i < |ws| && ws[i].Some? && ws[i].value.row.Keys <= schema.columns
    requires forall j | i < j < |ws| :: ws[j].None? || ws[j].value.key != ws[i].value.key
    ensures ws[i].value.key in Apply(schema, rows, ws)
    ensures Apply(schema, rows, ws)[ws[i].value.key] == schema.defaults + ws[i].value.row
    decreases |ws|
  {
    var n := |ws| - 1;
    if i < n {
      var prefix := ws[..n];
      assert prefix[i] == ws[i];
      forall j | i < j < |prefix| ensures prefix[j].None? || prefix[j].value.key != ws[i].value.key {
        assert prefix[j] == ws[j];
      }
      ApplyLastWins(schema, rows, prefix, i);
    }
  }

  /** Applying two runs of calls one after the other is applying them together. */
  lemma {:induction false} ApplyConcat(schema: Schema, rows: map<Key, Row>, xs: seq<Option<FileWrite>>, ys: seq<Option<FileWrite>>)
    ensures Apply(schema, Apply(schema, rows, xs), ys) == Apply(schema, rows, xs + ys)
    decreases |ys|
  {
    if ys == [] {
      assert xs + ys == xs;
    } else {
      var n := |ys| - 1;
      ApplyConcat(schema, rows, xs, ys[..n]);
      assert (xs + ys)[..|xs + ys| - 1] == xs + ys[..n];
      assert (xs + ys)[|xs + ys| - 1] == ys[n];
    }
  }

  /** Rows of other stocks are never touched by a stock's downloads. */
  lemma RecordedKeepsOtherStocks(schema: Schema, rows: map<Key, Row>, stock: string, saveDir: string, anns: seq<Announcement>, k: Key)
    requires k in rows && (|k| == 0 || k[0] != stock)
    ensures k in Recorded(schema, rows, stock, saveDir, anns)
    ensures Recorded(schema, rows, stock, saveDir, anns)[k] == rows[k]
  {
    ApplyKeepsUnnamed(schema, rows, Records(stock, saveDir, anns), k);
  }

  /**
   * With a table that has every column, each recorded announcement's row is in the table
   * afterwards unless a later announcement of the same period and type replaced it.
   */
  lemma RecordedLastWins(schema: Schema, rows: map<Key, Row>, stock: string, saveDir: string, anns: seq<Announcement>, i: nat)
    requires i < |anns| && RecordOf(stock, saveDir, anns[i]).Some?
    requires RecordOf(stock, saveDir, anns[i]).value.row.Keys <= schema.columns
    requires forall j | i < j < |anns| :: RecordOf(stock, saveDir, anns[j]).None? || RecordOf(stock, saveDir, anns[j]).value.key != RecordOf(stock, saveDir, anns[i]).value.key
    ensures var w := RecordOf(stock, saveDir, anns[i]).value;
      w.key in Recorded(schema, rows, stock, saveDir, anns) &&
      Recorded(schema, rows, stock, saveDir, anns)[w.key] == schema.defaults + w.row
  {
    ApplyLastWins(schema, rows, Records(stock, saveDir, anns), i);
  }

  /** `_record_file`: one INSERT OR REPLACE of an announcement's row, a failure caught and ignored. */
  method RecordFile(t: Table, w: FileWrite)
    requires t.Valid() && KeyMatches(t.schema, w.key, w.row)
    modifies t
    ensures t.Valid()
    ensures t.rows == Apply(t.schema, old(t.rows), [Some(w)])
  {
    assert [Some(w)][..0] == [];
    var _ := t.InsertOrReplace(w.key, w.row);
  }

  /** The `for ann in announcements` loop of `_download_cninfo` for one page. */
  method DownloadPage(t: Table, stock: string, saveDir: string, anns: seq<Announcement>)
    requires t.Valid() && t.schema.unique == FileUnique
    modifies t
    ensures t.Valid()
    ensures t.rows == Recorded(t.schema, old(t.rows), stock, saveDir, anns)
  {
    RecordsKeyMatch(t.schema, stock, saveDir, anns);
    RecordEach(t, Records(stock, saveDir, anns));
  }

  /** Each announcement's row, if it leads to one, recorded in turn. */
  method RecordEach(t: Table, ws: seq<Option<FileWrite>>)
    requires t.Valid()
    requires forall i | 0 <= i < |ws| :: ws[i].Some? ==> KeyMatches(t.schema, ws[i].value.key, ws[i].value.row)
    modifies t
    ensures t.Valid()
    ensures t.rows == Apply(t.schema, old(t.rows), ws)
  {
    ghost var start := t.rows;
    for i := 0 to |ws|
      invariant t.Valid()
      invariant t.rows == Apply(t.schema, start, ws[..i])
    {
      if ws[i].Some? {
        RecordFile(t, ws[i].value);
      } else {
        assert [ws[i]][..0] == [];
      }
      ApplyConcat(t.schema, start, ws[..i], [ws[i]]);
      assert ws[..i] + [ws[i]] == ws[..i + 1];
    }
    assert ws[..|ws|] == ws;
  }

  /** Every row a page leads to carries its own key. */
  lemma RecordsKeyMatch(schema: Schema, stock: string, saveDir: string, anns: seq<Announcement>)
    requires schema.unique == FileUnique
    ensures forall i | 0 <= i < |anns| :: Records(stock, saveDir, anns)[i].Some? ==>
      KeyMatches(schema, Records(stock, saveDir, anns)[i].value.key, Records(stock, saveDir, anns)[i].value.row)
  {
    forall i | 0 <= i < |anns| && Records(stock, saveDir, anns)[i].Some?
      ensures KeyMatches(schema, Records(stock, saveDir, anns)[i].value.key, Records(stock, saveDir, anns)[i].value.row)
    {
      RecordKeyMatches(schema, stock, saveDir, anns[i]);
    }
  }

  /** Every page in turn, until a page comes back empty or says there is no more. */
  method DownloadCninfo(t: Table, stock: string, saveDir: string, pages: seq<seq<Announcement>>)
    requires t.Valid() && t.schema.unique == FileUnique
    modifies t
    ensures t.Valid()
    ensures t.rows == Recorded(t.schema, old(t.rows), stock, saveDir, Flatten(pages))
  {
    ghost var start := t.rows;
    for i := 0 to |pages|
      invariant t.Valid()
      invariant t.rows == Recorded(t.schema, start, stock, saveDir, Flatten(pages[..i]))
    {
      DownloadPage(t, stock, saveDir, pages[i]);
      RecordedConcat(t.schema, start, stock, saveDir, Flatten(pages[..i]), pages[i]);
      assert pages[..i + 1][..i] == pages[..i];
    }
    assert pages[..|pages|] == pages;
  }

  /** The announcements of all pages, in order. */
  function Flatten(pages: seq<seq<Announcement>>): seq<Announcement>
    decreases |pages|
  {
    if pages == [] then [] else Flatten(pages[..|pages| - 1]) + pages[|pages| - 1]
  }

  /** Recording two runs of announcements one after the other is recording them together. */
  lemma RecordedConcat(schema: Schema, rows: map<Key, Row>, stock: string, saveDir: string, xs: seq<Announcement>, ys: seq<Announcement>)
    ensures Recorded(schema, Recorded(schema, rows, stock, saveDir, xs), stock, saveDir, ys) == Recorded(schema, rows, stock, saveDir, xs + ys)
  {
    ApplyConcat(schema, rows, Records(stock, saveDir, xs), Records(stock, saveDir, ys));
    RecordsConcat(stock, saveDir, xs, ys);
  }

  lemma RecordsConcat(stock: string, saveDir: string, xs: seq<Announcement>, ys: seq<Announcement>)
    ensures Records(stock, saveDir, xs) + Records(stock, saveDir, ys) == Records(stock, saveDir, xs + ys)
  {
    var l, r, all := Records(stock, saveDir, xs), Records(stock, saveDir, ys), Records(stock, saveDir, xs + ys);
    forall i | 0 <= i < |xs| ensures all[i] == l[i] {
      assert (xs + ys)[i] == xs[i];
    }
    forall i | 0 <= i < |ys| ensures all[|xs| + i] == r[i] {
      assert (xs + ys)[|xs| + i] == ys[i];
    }
    ConcatPointwise(l, r, all);
  }

  /** A sequence that agrees with `l` and then with `r`, and is as long as both, is `l + r`. */
  lemma ConcatPointwise<T>(l: seq<T>, r: seq<T>, all: seq<T>)
    requires |all| == |l| + |r|
    requires forall i | 0 <= i < |l| :: all[i] == l[i]
    requires forall i | 0 <= i < |r| :: all[|l| + i] == r[i]
    ensures l + r == all
  {
    forall i | |l| <= i < |all| ensures all[i] == r[i - |l|] {
      assert all[|l| + (i - |l|)] == r[i - |l|];
    }
  }
}
