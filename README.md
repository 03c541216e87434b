# Financial-report pipeline: normalisation, locks and reconciliation

This project models the data pipeline of a financial-report scraper for A-share, Hong Kong
and US stocks, and proves properties of the model. The pipeline has these stages:

- It fetches the three statements (income, balance sheet, cash flow) of a stock from a data
  provider.
- It normalises them into one record per report period: a date, a report type, and about
  forty numeric fields.
- It upserts each record into `financial_reports_raw`. A row whose `is_locked` equals 1 is
  never overwritten.
- It derives ratios (margins, ROE, ROA, debt ratio, FCF, year-on-year growth) into
  `financial_indicators_derived`.
- It downloads the annual and interim report PDFs, records them in
  `financial_reports_files`, and reconciles four critical figures against the text of the
  report. Each reconciled record gets a `data_quality` verdict.
- A dashboard shows the tables and screens them against value-investing thresholds.

There is one Dafny module per source file, plus shared modules:

- `Wrappers`: `Option`.
- `Texts`: Python string operations on ASCII text, and `float()` on plain decimals.
- `Ordering`: sorting a set by a total order; Python string order.
- `Dates`: `strptime`/`strftime`, `DateOffset(years=1)`, and the month-to-report-type rule.
- `Cells`: a provider cell, which is NULL, NaN, a number or text, and `get_val`'s coercion.
- `Store`: SQLite tables. A table maps its UNIQUE key to a row, and a row maps column names
  to values.

How each kind of source code is modelled:

- A table is a `Store.Table` object whose methods replace or update rows in place.
- Loops that write to the database are methods with loop invariants. Each is proved equal
  to a specification function over the old table.
- The per-record rules are functions whose contracts state the source's rules.
- Provider frames, the report text, the file system and the clock become parameters.

How the model reads the Python code:

- Python's `x or y` on floats is truthiness: 0 and `None` are false, and NaN is true.
- `INSERT OR REPLACE` builds a fresh row from the supplied columns plus the table defaults.
- An INSERT naming a column the table lacks raises. `save_to_db` and `_record_file` catch
  that and go on.
- `_process_and_save` in data_fetcher.py and `calculate_indicators` commit once at the end.
  An exception before the commit rolls every write of that call back.

## Model

| member | source | states |
|---|---|---|
| Cells.Coerce | fetchers/a_share.py:76-87 | `get_val` on a present column: NaN/None, "" and "--" give None; a number is kept; text loses its commas and goes through `float`, a `ValueError` giving None |
| Cells.CoerceIgnoresCommas | fetchers/a_share.py:82-84 | coercion gives the same value with or without thousands separators |
| Cells.CoerceThousands | fetchers/a_share.py:82-84 | a whole number printed with thousands separators coerces back to that number |
| Cells.Or | fetchers/a_share.py:92 | `a or b`: the first when it is truthy (non-zero, non-null), else the second; the result is truthy iff either is |
| Cells.ToCells | fetchers/base_fetcher.py:41-47 | a record's values as bound parameters: keys unchanged, a missing value is NULL and only then, a number stays that number |
| Store.Upsert | fetchers/base_fetcher.py:56-60 | INSERT OR REPLACE: if every supplied column exists, the key's row becomes the defaults overridden by the supplied values and no other row changes; otherwise nothing changes |
| Store.SetColumn | validator.py:158-162 | UPDATE of one column of the row with the key: only that column of that row changes, and no row is added |
| Store.Table.InsertOrReplace | fetchers/base_fetcher.py:56-60 | the in-place INSERT OR REPLACE: succeeds iff the table has every supplied column, leaves exactly `Upsert` of the old rows, keeps every row filed under its own key |
| Store.Table.Update | validator.py:158-163 | the in-place UPDATE: fails, changing nothing, iff the column is missing, else leaves `SetColumn` of the old rows |
| Dates.ParseCompact | fetchers/a_share.py:58 | `strptime(label, "%Y%m%d")` with CPython's alternation order; any result is a real date |
| Dates.ParseCompactRoundTrip | fetchers/a_share.py:58-65 | every date's eight-digit label parses back to that date |
| Dates.SevenCharacterLabel | fetchers/a_share.py:58 | a seven-character label such as "2023131" is accepted as 31 January 2023, not rejected |
| Dates.IsoRoundTrip | fetchers/a_share.py:65 | `strftime("%Y-%m-%d")` then `to_datetime` gives the date back |
| Dates.IsoInjective | fetchers/a_share.py:65 | distinct dates get distinct period strings, so two dates never share a raw-table key |
| Dates.ReportTypeOfMonthCases | fetchers/a_share.py:68-73 | months 3, 6, 9 and 12 give Q1, S1, Q3 and A, and every other month gives 'Other' |
| Dates.OneYearLater | calculator.py:77 | `+ DateOffset(years=1)`: same month, the year after, day kept except 29 February, which becomes 28 |
| Dates.SortedDates | fetchers/hk_share.py:105 | `iterrows` over the date index: every date once, in ascending order |
| Ordering.SortedStrings | fetchers/a_share.py:53 | `sorted(set)` of labels: a permutation of the set in strictly ascending Python string order |
| Ordering.StrLeIsTotalOrder | fetchers/a_share.py:53 | Python's string comparison is a total order (antisymmetric, transitive, total) |
| BaseFetcher.Clean | fetchers/base_fetcher.py:41-43 | `pd.isna → None`: the same keys, no NaN left, every other value unchanged |
| BaseFetcher.NullifyNaN | fetchers/base_fetcher.py:41-43 | the loop over `data.items()` leaves exactly `Clean(data)` |
| BaseFetcher.SuppliedKeyMatches | fetchers/base_fetcher.py:46-47 | the supplied columns carry the request's (stock_code, report_period) key |
| BaseFetcher.SuppliedRowSpec | fetchers/base_fetcher.py:46-51 | the INSERT names the five identity columns with the call's values, every data field with its cleaned value, and raw_data exactly when a JSON document is given |
| BaseFetcher.SavedRow | fetchers/base_fetcher.py:34-60 | on a table with is_locked, an unlocked save that the table accepts leaves the identity values, the cleaned data and the raw document; the columns it does not name take their defaults (data_quality back to UNVERIFIED) |
| BaseFetcher.LockedSurvivesSaves | fetchers/base_fetcher.py:29-37 | a row with `is_locked == 1` is unchanged by any sequence of saves |
| BaseFetcher.NoLockColumnNoWrites | fetchers/base_fetcher.py:29-32 | on a table without is_locked every lock query raises, so no sequence of saves changes any row |
| BaseFetcher.SavesTouchOnlyTheirKeys | fetchers/base_fetcher.py:56-60 | a row whose key no save names is unchanged |
| BaseFetcher.SaveToDb | fetchers/base_fetcher.py:21-65 | `save_to_db`: the lock query raises, writing nothing, on a table without is_locked; a locked key is skipped with `data` untouched; otherwise `data` is cleaned in place, the upsert is applied and committed, and a failing INSERT is reported and changes nothing |
| AShare.GetVal | fetchers/a_share.py:76-87 | a column the sheet lacks gives None; a present one gives the coerced cell |
| AShare.GrossProfit | fetchers/a_share.py:138-139 | gross profit is present iff revenue and cost are both truthy, and is then their difference |
| AShare.Record | fetchers/a_share.py:90-136 | the `data` dict has exactly the mapped fields |
| AShare.RevenueFallback | fetchers/a_share.py:92 | revenue is 营业总收入 when that is truthy, else 营业收入, so a reported zero is replaced |
| AShare.GrossProfitComputed | fetchers/a_share.py:94-139 | in the record, gross_profit is present iff revenue and cost are truthy, and is revenue − cost |
| AShare.Periods | fetchers/a_share.py:53 | the periods processed are the labels present in all three statements, strictly ascending |
| AShare.Kept | fetchers/a_share.py:56-62 | a label is kept iff it parses as a date of year 2010 or later |
| AShare.RequestsSpec | fetchers/a_share.py:55-142 | a save is in the run iff it is the save of a kept label, with that label's date, report type and record |
| AShare.RequestsAppend | fetchers/a_share.py:55-142 | the saves follow the label order: the run over `a + b` is the run over `a` followed by the run over `b` |
| AShare.ProcessAndSave | fetchers/a_share.py:37-142 | the loop leaves the table as the saves of the kept periods applied in order; it raises iff there is a save to make and the table lacks is_locked |
| AShare.SaveLabels | fetchers/a_share.py:55-142 | over any labels, the loop leaves the table as those labels' saves applied in order, and raises iff there is a save to make on a table without is_locked |
| AShare.SaveLabel | fetchers/a_share.py:55-142 | one pass after the earlier ones: a raise means the run raises with nothing written; otherwise the table holds the saves up to this label |
| AShare.SavePeriod | fetchers/a_share.py:56-142 | one pass: a label that is not kept changes nothing; a kept one is saved, and raises iff the table lacks is_locked |
| AShare.RaiseEndsLabels | fetchers/a_share.py:55-142 | a kept label on a table without is_locked makes the run raise |
| AShare.RunRaisesIffKept | fetchers/a_share.py:55-142 | the loop raises iff the table lacks is_locked and some label parses as a date from 2010 on |
| AShare.FetchFinancialData | fetchers/a_share.py:7-35 | all saves applied when the three sheets arrive, True iff no save raised; False with nothing written when fetching fails |
| DataFetcher.InlineRowColumns | data_fetcher.py:172-222 | the inline INSERT names the identity columns, currency and every mapped field |
| DataFetcher.InlineKeyMatches | data_fetcher.py:172-176 | the inline row carries its own (stock_code, report_period) key |
| DataFetcher.RaiseIsFinal | data_fetcher.py:246-248 | once an INSERT of the loop raises, the whole call fails |
| DataFetcher.WriteUnlessLocked | data_fetcher.py:228-246 | the lock query raises on a table without is_locked; a locked key is skipped; otherwise the INSERT is applied, and it raises iff the table lacks a column |
| DataFetcher.SavePeriod | data_fetcher.py:136-246 | one loop iteration: skip non-dates and pre-2010 labels, else run the lock query and write the period's row unless locked |
| DataFetcher.ProcessAndSave | data_fetcher.py:102-249 | the loop commits every period's write when none raises, and restores the table when one does |
| DataFetcher.SaveLabels | data_fetcher.py:136-249 | over any labels, the loop commits all the writes when none raises and restores the table when one does |
| DataFetcher.NoLockColumnRaises | data_fetcher.py:229-232 | on a table without is_locked the loop raises iff some label is kept, and otherwise writes nothing |
| DataFetcher.NoRaiseWithFullSchema | data_fetcher.py:229-246 | a table with is_locked and every written column never makes the loop raise |
| DataFetcher.InlineKeepsLocked | data_fetcher.py:228-236 | a locked row is unchanged by the loop |
| DataFetcher.InlineTouchesOnlyKeptPeriods | data_fetcher.py:136-246 | rows of periods the loop does not keep are unchanged |
| DataFetcher.InlineSavedRow | data_fetcher.py:172-246 | on a table with is_locked, a written row has the identity values and CNY, while market and data_quality fall back to their defaults |
| DataFetcher.InlineWriteRow | data_fetcher.py:229-246 | on a table with is_locked, an unlocked accepted write leaves exactly the defaults overridden by the written columns |
| DataFetcher.RecordLacksMarket | data_fetcher.py:172-222 | the inline record names neither market nor data_quality |
| DataFetcher.Latest | data_fetcher.py:69-77 | `ORDER BY report_period DESC LIMIT 10`: at most ten stored periods, strictly descending |
| DataFetcher.LatestAreLatest | data_fetcher.py:69-77 | every stored period left out sorts before every period kept |
| DataFetcher.SweepStopped | data_fetcher.py:84-100 | once a validation raises, the sweep stops and nothing after it happens |
| DataFetcher.SweepOnlyWritesQuality | data_fetcher.py:84-100 | the validation sweep changes no column but data_quality and adds no row |
| DataFetcher.ValidateData | data_fetcher.py:59-100 | `_validate_data` validates the ten latest periods in order, stopping at the first exception |
| DataFetcher.ValidatePeriods | data_fetcher.py:84-100 | over any periods, the loop leaves the table as the validation sweep of those periods |
| DataFetcher.FetchAStockFinancials | data_fetcher.py:24-57 | the save (all or nothing) and then, when the validator is present, the sweep; True iff nothing raised |
| Validator.FieldOrderCoversRules | validator.py:14-19 | the details are built over exactly the four critical fields, each once, in declaration order |
| Validator.CaptureStart | validator.py:133 | the lazy `[^\d]{0,20}?` window ends at the first digit or comma within 20 characters |
| Validator.LeftmostMatchIsLeftmost | validator.py:133-137 | `findall(...)[0]` comes from the leftmost position where the pattern matches; no match anywhere gives none |
| Validator.SearchKeywords | validator.py:130-151 | the keyword loop returns the field's value: that of the first keyword yielding one |
| Validator.FieldValueIsFirst | validator.py:130-151 | a field has no value iff none of its keywords yields one; otherwise its value is that of a keyword all of whose predecessors yield none |
| Validator.TryKeyword | validator.py:131-149 | one keyword's pass (first capture, commas removed, `float`, the unit heuristic) gives its value |
| Validator.Rescale | validator.py:142-145 | a figure below 1e4 is multiplied by 1e8; any other is kept |
| Validator.ExtractFields | validator.py:127-153 | the field loop collects exactly the fields that have a value, with that value |
| Validator.ExtractFromText | validator.py:118-153 | `_extract_from_txt` gives exactly `Extracted(text)`: only critical fields, and nothing for an unreadable file |
| Validator.UnitScaleFixedPoints | validator.py:143-146 | the unit heuristic leaves a value alone iff it is at least 1e4 or zero |
| Validator.CaptureStartSkips | validator.py:133 | the window skips exactly the non-digits in front of the number |
| Validator.ReadsBackPrintedNumber | validator.py:133-148 | a whole number printed with thousands separators after a keyword and up to 20 non-digits is read back as that number (then unit-scaled) |
| Validator.Deviation | validator.py:59 | the relative deviation is never negative |
| Validator.Compare | validator.py:47-75 | provider NULL gives MISSING_AKSHARE first, then a missing document value gives MISSING_PDF; otherwise PASS iff deviation < 2%, the figures divided by the unit; raises on stored text or two zeros |
| Validator.PassIffWithinTolerance | validator.py:59-61 | a field passes iff the absolute gap is under 2% of the larger magnitude |
| Validator.DeviationSymmetric | validator.py:59 | the deviation does not depend on which side is the provider's |
| Validator.ExactlyTwoPercentConflicts | validator.py:61-75 | 100 against 98 (exactly 2%) is a CONFLICT |
| Validator.EqualFiguresPass | validator.py:61-67 | identical non-zero figures PASS with deviation 0 |
| Validator.DetailsOf | validator.py:46-75 | one detail per critical field in order; the loop raises iff some comparison raises |
| Validator.CompareFields | validator.py:43-75 | the loop builds exactly those details, and has_conflict holds iff some field is CONFLICT |
| Validator.CompareEach | validator.py:46-75 | over any list of critical fields, the loop raises iff some comparison raises, and otherwise returns one detail per field with has_conflict iff one is CONFLICT |
| Validator.HasConflictStep | validator.py:68-69 | appending a detail sets has_conflict iff it is a CONFLICT or one was already there |
| Validator.ReportOf | validator.py:24-85 | NO_DATA iff there is no raw row; NO_FILE iff there is a row but no readable path; otherwise the four details, with CONFLICT iff some field conflicts |
| Validator.ValidateReport | validator.py:24-85 | `validate_report` returns `ReportOf` and writes the verdict to data_quality only after a completed check |
| Validator.UpdateQualityFlag | validator.py:155-163 | the UPDATE sets only data_quality of the matching row |
| Validator.MissingSidesFirst | validator.py:50-56 | a NULL provider value is MISSING_AKSHARE whatever the document says, before any document check |
| Validator.AllMissingIsVerified | validator.py:44-78 | a record with no field compared is still VERIFIED |
| Validator.QualityWriteOnlyTouchesQuality | validator.py:155-163 | the quality write changes no other column (financial fields, is_locked) and no other row |
| Validator.QualityWriteIgnoresLock | validator.py:155-163 | a locked row gets its verdict like any other and stays locked |
| HkShare.PivotCovers | fetchers/hk_share.py:56-68 | the pivot has a date for each REPORT_DATE, a column for each STD_ITEM_NAME, and a cell exactly where some entry supplies one |
| HkShare.PivotFirstSeen | fetchers/hk_share.py:64-67 | `drop_duplicates` keeps the first entry of each (date, item) pair, and its amount is the cell |
| HkShare.JoinDates | fetchers/hk_share.py:32 | the outer join's dates are the union of both sides' dates |
| HkShare.JoinKeepsLeft | fetchers/hk_share.py:32 | a left column keeps its name and its values |
| HkShare.JoinMovesRight | fetchers/hk_share.py:32 | a right column keeps its values, under `name + rsuffix` when the left side has that name too |
| HkShare.MergedDates | fetchers/hk_share.py:26-32 | every merged date comes from some entry of the three statements |
| HkShare.RowOf | fetchers/hk_share.py:105 | a row of the merged frame has one cell per column |
| HkShare.ToFloat | fetchers/hk_share.py:119-120 | `float(val)` keeps a number; it never yields "no value" |
| HkShare.FindVal | fetchers/hk_share.py:114-121 | `find_val` gives None iff no candidate is a present, non-NaN, non-empty cell; otherwise it gives the first usable candidate's float, or raises |
| HkShare.FindValue | fetchers/hk_share.py:114-121 | the candidate loop computes `FindVal` |
| HkShare.NetIncomeFallback | fetchers/hk_share.py:128-129 | only net_income can change, and it becomes net_income_parent when missing |
| HkShare.DataWith | fetchers/hk_share.py:124-129 | building `data` fails iff some field's lookup raises |
| HkShare.DataWithSpec | fetchers/hk_share.py:124-129 | `data` holds every mapped field's lookup, with net_income replaced by net_income_parent when it is missing |
| HkShare.NetIncomeFields | fetchers/hk_share.py:78-79 | the mapping lists net_income and net_income_parent with their candidate labels |
| HkShare.BuildData | fetchers/hk_share.py:124-129 | the field loop computes `DataWith` |
| HkShare.RawOf | fetchers/hk_share.py:133-140 | the raw JSON has the row's keys, null exactly for NaN/None, and every number unchanged |
| HkShare.RawJson | fetchers/hk_share.py:133-143 | the raw_dict loop computes `RawOf` |
| HkShare.RaisedIsFinal | fetchers/hk_share.py:105-146 | once a row raises, no later row is saved |
| HkShare.RunSaves | fetchers/hk_share.py:105-146 | the saves are the dates in ascending order up to the first row that raises, each with its data and raw JSON; raised iff the loop stopped early |
| HkShare.RunOverSaves | fetchers/hk_share.py:105-146 | a run saves the outcomes in order up to the first that raises, and raised iff it stopped before the end |
| HkShare.ProcessAndSave | fetchers/hk_share.py:70-146 | the loop commits each save on its own, so the saves before an exception persist; it raises when a row does not convert, or on any date when the table lacks is_locked |
| HkShare.SavePass | fetchers/hk_share.py:105-146 | one pass: raises when a value does not convert, or when the save's lock query raises; otherwise the date's save is applied |
| HkShare.NoLockColumnRun | fetchers/hk_share.py:105-146 | on a table without is_locked a run over some dates raises and writes nothing |
| HkShare.SaveDates | fetchers/hk_share.py:105-146 | over any dates, the loop raises on a row that does not convert or, on a table without is_locked, at the first date; it leaves exactly the run's saves applied |
| HkShare.FetchFinancialData | fetchers/hk_share.py:7-44 | False with nothing written when the income and balance sheets are both empty; otherwise pivot, join and save, True iff no row failed to convert and the lock query did not raise |
| HkShare.FieldsAreNotFixed | fetchers/hk_share.py:74-103 | no mapped field collides with an identity column or raw_data |
| HkShare.RunSavesWellFormed | fetchers/hk_share.py:105-146 | every save names its fields apart from the identity columns and raw_data |
| Calculator.Ratio | calculator.py:39-69 | `num / den * scale if den else None`: present iff the numerator is present and the denominator truthy |
| Calculator.RatioScales | calculator.py:39-69 | a present ratio times the denominator is the numerator times the scale |
| Calculator.Fcf | calculator.py:66 | FCF is present iff cfo and capex both are, and FCF + capex = cfo |
| Calculator.Yoy | calculator.py:83-86 | growth is present iff this year's and last year's values are present and last year's is non-zero |
| Calculator.YoyScales | calculator.py:83-86 | present growth times abs(last) is (x − last) × 100 |
| Calculator.YoyPositiveIffRose | calculator.py:83-86 | growth is positive iff the figure rose, whatever the sign of the base |
| Calculator.GrossMarginExample | calculator.py:39 | gross profit 80 on revenue 200 is a 40% margin |
| Calculator.IndicatorRow | calculator.py:99-116 | the INSERT names exactly the twelve derived columns |
| Calculator.UnstoredColumns | calculator.py:56-116 | current_ratio and net_profit_ttm are computed but never written |
| Calculator.YoyNeedsLastYear | calculator.py:76-86 | without a row exactly a year earlier, both growth columns are NULL |
| Calculator.StoredPercent | calculator.py:99-106 | a stored percentage is REAL iff the numerator is present and the denominator truthy, NULL otherwise, and then times the denominator is 100 × the numerator |
| Calculator.GrossMarginStored | calculator.py:39 | the stored gross margin is a number iff gross profit and non-zero revenue are stored, and is then gross profit per 100 of revenue |
| Calculator.IndicatorRowKey | calculator.py:103-105 | the row carries its own (stock_code, report_period) key |
| Calculator.LastYear | calculator.py:76-80 | the merged "last" row is a stored row dated exactly one `DateOffset(years=1)` earlier; None iff there is none |
| Calculator.ParseAll | calculator.py:21-29 | `to_datetime` of the ordered labels: every date with its row, and a failure iff some label is not a date in the `Timestamp` range |
| Calculator.ByDate | calculator.py:30 | the date index holds exactly the parsed dates |
| Calculator.Writes | calculator.py:99-125 | one write per raw period in order, keyed by its date, with its ratios and last year's row |
| Calculator.OrderedPeriods | calculator.py:21 | `ORDER BY report_period`: exactly the stock's stored periods, each filed under (stock, period) |
| Calculator.ReadRaw | calculator.py:21-30 | reading and parsing the stock's rows gives `ParseAll` of the ordered periods |
| Calculator.ParsePeriods | calculator.py:29 | over any stored periods, the parse gives every date with its row, or fails iff some period is not a date in the `Timestamp` range |
| Calculator.ToDatetimeRoundTrip | calculator.py:29 | a stored `YYYY-MM-DD` period converts back to its date iff the date lies in 1677-09-22 … 2262-04-11, and raises otherwise |
| Calculator.UpsertRaiseIsFinal | calculator.py:99-125 | once an INSERT raises, the run fails |
| Calculator.CalculateIndicators | calculator.py:12-129 | NoRawData with nothing written when the stock has no raw rows; otherwise every write committed together, or, on any exception, nothing |
| Calculator.UpsertAll | calculator.py:99-127 | the INSERT loop leaves exactly the upserts when none raises, and restores the table when one does |
| Calculator.UpsertsTouchOnlyTheirKeys | calculator.py:121-125 | derived rows of other keys are untouched |
| Calculator.UpsertsSucceed | calculator.py:121-125 | a table with every derived column never makes the loop raise |
| Calculator.WritesSpec | calculator.py:103-125 | every write names exactly the twelve columns and carries its own key |
| PdfDownloader.StockTypeOf | pdf_downloader.py:112-118 | A iff six digits, HK iff five digits, US iff not all digits but all letters; anything else, other digit lengths included, is UNKNOWN |
| PdfDownloader.RouteCases | pdf_downloader.py:134-179 | cninfo iff a five- or six-digit code; Shanghai iff six digits led by 6; HKEX with the HK categories iff five digits; SEC iff a letter ticker and the library is present |
| PdfDownloader.OtherDigitCodesUnknown | pdf_downloader.py:113-118 | a four-digit code is UNKNOWN |
| PdfDownloader.FileName | pdf_downloader.py:199-200 | the file name contains no '/' and is the title plus four characters |
| PdfDownloader.FirstYear | pdf_downloader.py:241 | `re.search(r'(\d{4})年')`: the leftmost four digits followed by 年 |
| PdfDownloader.KindOf | pdf_downloader.py:247-267 | the keyword priority: third quarter, first quarter, half year, annual; none of them gives no kind |
| PdfDownloader.PeriodFromTitle | pdf_downloader.py:237-255 | no period iff the title has no year or names no kind |
| PdfDownloader.TypeFromTitle | pdf_downloader.py:257-267 | always Q3, Q1, S1 or A, and A when no keyword matches |
| PdfDownloader.QuarterEndParses | pdf_downloader.py:246-255 | four digits closed by a quarter end parse as that date, a month's last day, unless the year is 0000 |
| PdfDownloader.PeriodMatchesType | pdf_downloader.py:237-267 | a title's period is the last day of a quarter-end month of its first year, and its type is the type of that month; only year 0000 yields a non-date |
| PdfDownloader.HalfYearTitle | pdf_downloader.py:246-252 | "2023年半年度报告" is S1 ending 2023-06-30, although it also contains 年度报告 |
| PdfDownloader.LeadAbsent | pdf_downloader.py:195 | a keyword whose first character the title lacks is not `in` the title |
| PdfDownloader.RecordOfSpec | pdf_downloader.py:191-225 | a row is written iff the cleaned title is not a summary or cancellation and names a period; it is keyed (stock, period, type), of type PDF, stored at the sanitised file name, and SUCCESS iff a text file exists |
| PdfDownloader.RecordKeyMatches | pdf_downloader.py:43-49 | the row carries its own (stock_code, report_period, report_type) key |
| PdfDownloader.ApplyKeepsUnnamed | pdf_downloader.py:43-57 | a files-table row that no write names is untouched |
| PdfDownloader.ApplyLastWins | pdf_downloader.py:43-57 | an accepted write's row stays unless a later write names the same key |
| PdfDownloader.ApplyConcat | pdf_downloader.py:181-229 | writing two runs of announcements one after the other is writing them together |
| PdfDownloader.RecordedKeepsOtherStocks | pdf_downloader.py:34-59 | a stock's downloads never touch another stock's file rows |
| PdfDownloader.RecordedLastWins | pdf_downloader.py:220-225 | a recorded announcement's row is in the table unless a later announcement of the same period and type replaced it |
| PdfDownloader.RecordFile | pdf_downloader.py:34-59 | `_record_file` applies the row's upsert, and a failure changes nothing |
| PdfDownloader.FileRowKey | pdf_downloader.py:43-49 | the supplied columns carry the (stock_code, report_period, report_type) the row is filed under |
| PdfDownloader.RecordEach | pdf_downloader.py:191-225 | recording each announcement's row in turn leaves the writes applied in order |
| PdfDownloader.RecordsKeyMatch | pdf_downloader.py:43-49 | every row a page leads to carries its own key |
| PdfDownloader.DownloadPage | pdf_downloader.py:191-225 | the announcement loop leaves `Recorded` of the page |
| PdfDownloader.DownloadCninfo | pdf_downloader.py:181-233 | paging through the results leaves `Recorded` of all announcements in order |
| PdfDownloader.RecordsConcat | pdf_downloader.py:191-225 | the writes of two runs are the writes of the first followed by those of the second |
| PdfDownloader.RecordedConcat | pdf_downloader.py:181-229 | recording page after page is recording all pages' announcements in order |
| App.FormatVal | app.py:67-69 | "-" iff the value is missing; otherwise a percentage, or an amount in units of 10^8 |
| App.RoeRow | app.py:73-90 | ROE is met iff it is at least 15; the gap is ROE − 15; missing data shows "-" |
| App.MarginRow | app.py:93-109 | gross margin is met iff at least 40, low iff below; gap margin − 40 |
| App.DebtRow | app.py:112-128 | the debt ratio is met iff at most 60, risky iff above; the gap is the safety margin 60 − actual |
| App.FcfRow | app.py:131-144 | FCF is positive iff above 0 and negative otherwise; missing data is flagged; never a gap; shown in units of 10^8 |
| App.AnalyzeGap | app.py:56-146 | no rows unless the framework is exactly "价值投资 (巴菲特)" (so not the default "value"); otherwise the ROE, margin, debt and FCF rows in that order |
| App.MetMeansNoShortfall | app.py:73-128 | a met threshold row has a non-negative gap, and a row shows missing data iff its value shows "-" |
| App.Fmt | app.py:358-376 | None shows "-"; text `float` refuses is shown as given; a number is a percentage iff its name has a ratio word but is not current_ratio/cfo_to_net, divided by 10^8 iff otherwise labelled [亿], else plain |
| App.CashRatioShownPlain | app.py:365-376 | current_ratio and cfo_to_net_income both show plain numbers |
| App.LetterAbsent | app.py:366 | a keyword containing a character the field name lacks is not `in` it |
| App.OfTypeMembers | app.py:256-259 | the result is no longer than the input, and holds a row iff the input holds it and it has the chosen type |
| App.OfTypeAppend | app.py:256-259 | the filter keeps the row order: filtering `a + b` is filtering `a` followed by filtering `b` |
| App.OfTypeCounts | app.py:256-259 | each row of the chosen type occurs in the result as often as in the input, any other row never |
| App.FilterReports | app.py:253-259 | "全部" keeps every row; the four labels map to A, Q3, S1 and Q1; any other choice is a `KeyError` |
| App.OfTypeIdempotent | app.py:256-259 | filtering twice by a type is filtering once |
| App.ChoicesAreReportTypes | app.py:253 | every filter label maps to one of the four report types, and "全部" is not one of them |

## Left out

- Network and provider calls are not modelled: akshare, cninfo, the orgId lookup and SEC.
  Their results are parameters (`Sheets`, entries, announcements).
- The PDF parser is not modelled. Its output path and whether the text file exists are
  parameters of each announcement.
- The clock (`datetime.now()`), file sizes and the file system are parameters.
- Printing, Streamlit/plotly, sessions, and the unreturned `score` of `analyze_gap` are left
  out.
- Number-to-text formatting is left out: f-strings with `:.2f`/`:+.2f`, `round(..., 2)` in the
  validator's details, and `format_val`/`fmt` digits. Figures keep their real values, and
  `Figure`/`Shown` name the form they are printed in.
- Floating point is modelled as exact `real` arithmetic: no rounding, and no inf. NaN exists
  only as a provider cell.
- Calculator.Yoy: a zero base gives NULL. The source divides by `abs(0)` and stores ±inf, or
  NaN (NULL) when the value is also 0. Reals have no inf.
- Calculator.LastYear: two earlier rows (28 and 29 February of a leap year) can both land on
  28 February after `DateOffset(years=1)`. pandas then duplicates the row; the model takes the
  28 February one.
- `calculate_indicators` on a column that is entirely NULL is not modelled: pandas gives it
  object dtype, and `abs()` raises `TypeError`.
- HkShare.Join: a left label already ending in `_bal`/`_cash` can collide with a renamed right
  column, which makes pandas raise. The join lemmas require that it does not.
- `pd.to_datetime` accepts many formats. The model reads only `YYYY-MM-DD` in the calculator
  (`Calculator.ToDatetime`, which also refuses dates outside the nanosecond `Timestamp`
  range), and HK report dates arrive as dates.
- Pandas index details are left out: `set_index` failures, duplicate index labels, and the
  `报表日期` fallback column (both names are treated as the period index).
- Timestamps inside the HK `raw_dict` are left out: cells are numbers, text, NaN or None. The
  JSON text encoding of raw_data is a structured value.
- Python's `isdigit`, `isalpha` and `\d` also accept non-ASCII digits and letters; the model
  is ASCII only. `float()` is modelled on plain decimal text: no exponent, whitespace, `inf`,
  `nan` or underscores.
- SQLite type affinity is not modelled: values are stored as bound. `is_locked` is compared
  as 1 or 1.0.
- The table schema (columns, defaults, UNIQUE) is a parameter. `is_locked` appears in no
  table definition or migration of the repository, so on the tables the repository creates
  every lock query raises. The model follows that case through every fetcher
  (`Store.HasLockColumn`), and also proves what the fetchers do on a table that has the
  column.
- The order of SQL columns and of dict iteration is not modelled. A row is a map. The
  validator's field order is kept as a sequence.
- The printed counts of `_validate_data` are left out.
- The first `_download_cninfo` and `_download_sec` of pdf_downloader.py are left out: later
  definitions shadow them. The later `_download_sec` (pdf_downloader.py:270-283) is left out
  as network I/O: it downloads the 10-K and 10-Q filings with `SecDownloader` and only prints a failure.
- The request and paging of `_download_cninfo` are not modelled. The pages are given: the loop
  runs until a page is empty, `hasMore` is false, or an exception. The search parameters
  (dates, `pageSize`) are not modelled.
- PdfDownloader.RecordOfSpec: `file_path.relative_to(...)` is modelled as the save directory, "/",
  and the file name.
- PdfDownloader.DownloadPage: each announcement's row is computed by `Records` and the
  writes are then applied in order. The download the source does between the two is I/O and
  is left out.
- App.Fmt: NaN cells and numeric text take the number path; what `fmt` then prints ("nan") is
  not modelled. `field_map`'s labels are a parameter.
- The LLM extraction strategy, the database DDL scripts and the migrations are not part of
  this model.
