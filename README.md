# Expense tracker analytics: a Dafny model

This project models the analytics pipeline of the Streamlit expense tracker
(`app.py`) in Dafny and proves properties of it. The pipeline runs between
reading the uploaded CSV and drawing the charts:

1. **Ingestion.** Check the five required columns (`Date, Category, Amount,
   Payment Method, Description`). Coerce the `Date` and `Amount` columns in
   place, then drop every row where either one did not parse.
2. **Filtering.** Apply the sidebar filters: an inclusive date window, a
   category selection, a payment-method selection, and a case-insensitive
   description search that is skipped when the search box is blank.
3. **Stop on empty.** If nothing passes the filters, the page stops.
4. **Aggregation.** Monthly sums, category sums, and a date-sorted
   cumulative series.
5. **KPIs.** Total, average per month, largest expense, transaction count,
   and the comparison with the "previous month".
6. **Rules.** The budget alert and the month-over-month insight.

Modules, one per file:

- `wrappers.dfy`: `Option` and `Result`.
- `seqs.dfy`: filtering and summing sequences, with order and permutation lemmas.
- `dates.dfy`: dates, month periods, and `date - MonthBegin(1)`.
- `records.dfy`: the canonical record.
- `grouping.dfy`: `groupby(key).sum()` with sorted keys.
- `ingest.dfy`: the DataFrame as a class changed in place, and `Load`.
- `filters.dfy`: the filters.
- `timeline.dfy`: the date sort and the `Cumulative` column.
- `kpis.dfy`: the KPIs and the previous-month comparison.
- `rules.dfy`: the budget alert and the insight.
- `dashboard.dfy`: the whole pass.

Modelling choices:

- Amounts are whole cents (`int`). The average and the percentage change are `real`.
- The date and number parsers of pandas are parameters (`Ingest.Parsers`):
  each turns a cell's text into a value or nothing.
- The uploaded table, the filter selections and the budget are inputs.

## Model

| member | source | states |
|---|---|---|
| `Ingest.LoadFailsIffColumnMissing` | app.py:31-34 | The load fails exactly when one of the five required columns is absent. |
| `Ingest.LoadYieldsValidDates` | app.py:36 | When the date parser returns only calendar dates, as `to_datetime` does, every loaded record has a calendar date. |
| `Ingest.LoadKeepsParsedRowsInOrder` | app.py:36-38 | A successful load yields exactly the rows whose date and amount both parse, converted, at strictly increasing input positions: every parsing row is kept and no other. |
| `Ingest.Ingest` | app.py:30-38 | Building the frame, checking the columns, coercing the two columns in place and dropping incomplete rows gives exactly `Load`. |
| `Ingest.ExpenseFrame.constructor` | app.py:30 | After reading, the frame has the table's header, and its date and amount cells are still text. |
| `Ingest.ExpenseFrame.CoerceDates` | app.py:36 | Every date cell is replaced by its parsed date, or by missing when it does not parse. Nothing else changes. |
| `Ingest.ExpenseFrame.CoerceAmounts` | app.py:37 | Every amount cell is replaced by its parsed number, or by missing when it does not parse. Nothing else changes. |
| `Ingest.ExpenseFrame.DropMissing` | app.py:38 | The rows become the rows, in order, that have no missing value in the given columns. A cell that is still text counts as present. |
| `Filters.ApplyFiltersIsSelection` | app.py:56-63 | The mask followed by the conditional search equals one pass with the conjunction `Selected`: window, category, payment method, and blank search or a matching description. |
| `Filters.ApplyFiltersKeepsIff` | app.py:56-63 | A record is in the result iff it is in the input and satisfies `Selected`. A missing description never matches a non-blank search. |
| `Filters.ApplyFiltersPreservesOrder` | app.py:56-63 | The result is the subsequence of the input at the selected positions, in input order. |
| `Filters.ApplyFiltersIdempotent` | app.py:56-63 | Filtering the result again with the same selections changes nothing. |
| `Filters.EmptySelectionKeepsNothing` | app.py:59-60 | An empty category or payment-method selection keeps no record. |
| `Filters.KeptWithinWindow` | app.py:57-58 | Every kept record's date lies within the inclusive window. |
| `Filters.BlankIffAllSpace` | app.py:62 | `search_text.strip()` is empty iff the text is whitespace only. |
| `Dates.MinusMonthBeginIsLatestMonthStart` | app.py:79 | For a valid date, `d - MonthBegin(1)` is the latest first-of-month date strictly before `d`. |
| `Dates.PrevMonthKey` | app.py:79 | The looked-up period is the start's own month when the start day is after the 1st. It is the preceding month, with the year wrapping at January, when the start is the 1st. |
| `Kpis.MonthlySumsSpec` | app.py:69-73 | Monthly buckets have strictly ascending, distinct months. There is exactly one bucket per month that has a record. Each bucket holds its month's total, and the buckets sum to the total. |
| `Kpis.CategorySumsSpec` | app.py:102 | Category buckets are sorted by code point, one per distinct category present. Each holds its category's total, and the buckets sum to the total. |
| `Kpis.StrLessIsStrictOrder` | app.py:102 | Code-point lexicographic comparison of category names is a strict total order, so the grouping keys are sorted and distinct. |
| `Kpis.MaxExpense` | app.py:75 | The largest expense is one of the amounts and at least every amount. |
| `Kpis.AvgPerMonthIsTotalOverMonths` | app.py:73-74 | A non-empty set has between one bucket and one bucket per record. The mean of the buckets equals the total divided by the number of buckets. |
| `Kpis.MonthlyLookup` | app.py:80 | `monthly_sum.get(k)` is that month's total when some record falls in month `k`, and absent otherwise. |
| `Kpis.PctChangeDefinedIff` | app.py:79-81 | `pct_change` is defined iff the looked-up period is a bucket with a strictly positive sum. It then equals `(avg - prev) / prev * 100`. |
| `Kpis.ComputeKpisSpec` | app.py:72-81 | Count is the number of filtered records. The largest expense is an amount bounding all amounts. The average is total over buckets. Monthly and category sums both equal the total. `pct_change` is defined iff the looked-up bucket is positive. |
| `Kpis.PctChangeStaysInsideWindow` | app.py:79-81 | Over records that all lie on or after the start, a start on the 1st never yields a comparison. Any other start compares with the window's own first month. |
| `Kpis.PriorMonthBeforeWindow` | app.py:78-81 | The calendar month before the start's month precedes the month of every date in the window. |
| `Kpis.PriorMonthPctChangeSpec` | app.py:78-81 | The corrected comparison is defined iff the whole data set has records in the month before the window with a positive total. It then compares the average with that total. |
| `Timeline.SortByDateSpec` | app.py:117 | The sorted records have non-decreasing dates and are a permutation of the filtered records. |
| `Timeline.CumulativeColumn` | app.py:118 | The loop fills a newly allocated array whose entry `i` is the total of the first `i + 1` sorted records. |
| `Timeline.CumulativeSeries` | app.py:117-118 | The series is a newly allocated array with one entry per record, over date-sorted records that permute the filtered ones. Its last entry is the total spent. |
| `Timeline.RunningTotalsEndAtTotal` | app.py:118 | The last cumulative entry is the total of all records. |
| `Timeline.RunningTotalsNondecreasing` | app.py:118 | With no negative amounts, the cumulative series never decreases. |
| `Rules.BudgetCheck` | app.py:94-98 | A budget of 0 or less gives no verdict. Otherwise the total is either over budget, by the positive overage `total - budget`, or within it. Exactly one outcome holds. |
| `Rules.BudgetCheckMonotone` | app.py:94-98 | Spending more never turns over-budget into within-budget, and the overage grows with the total. |
| `Rules.TrendInsight` | app.py:148-156 | No comparison gives "not enough data". Above +20 gives the increase alert, below -20 the decrease note, and anything else "stable". Exactly one outcome holds. |
| `Rules.TrendInsightMeaning` | app.py:148-156 | Against a positive previous figure `p`: the alert fires iff the average exceeds `1.2 p`, the decrease note iff it is below `0.8 p`, and "stable" otherwise. |
| `Dashboard.RunStopsIff` | app.py:31-67 | The script fails iff a required column is missing. Otherwise the analytics stop, with the "no match" warning, iff no validated record passes the filters. |
| `Dashboard.AnalyzeConsistent` | app.py:56-156 | On a non-empty result, everything shown agrees. The count is the number of filtered records. Monthly sums, category sums and the last cumulative entry all equal the total. The average is total over buckets. The timeline is date-sorted and permutes the filtered records. The budget verdict follows from the KPIs. The insight is reached iff there are at least two monthly buckets, because Prophet's fit at line 128 raises on fewer. When it is reached, it follows from `pct_change`. |
| `Dashboard.AnalyzeNeverComparesWithPriorMonth` | app.py:79-81 | As written, with a window starting on the 1st, whenever the insight is reached (two or more monthly buckets) it is "not enough data". |
| `Dashboard.PriorMonthCounterexample` | app.py:79-81 | Concrete case: January 10,000, February and March 15,000, window February 1 to March 31. As written: no comparison and "not enough data". Corrected: +50% and the alert. Starting the window on February 5 instead: the average is compared with February itself, 0% and "stable". |
| `Dashboard.TwoMonthScenario` | app.py:69-118 | On three records over two months, the model computes:<br>• monthly sums 8,000 and 2,000<br>• category sums Food 8,000 and Transport 2,000<br>• total 10,000, average 5,000, largest 5,000<br>• cumulative 5,000, 8,000, 10,000<br>• a 9,000 budget exceeded by 1,000 |

## Left out

- Page layout, widgets, `st.stop` and the message and metric texts (app.py:11-25, 41-53, 83-91, 96-98). These are presentation. The date range, selections, search text and budget are inputs (`Filters.Criteria` and the `budget` parameter).
- The check that the date picker returned two dates (app.py:45-47). It belongs to the widget.
- The charts (app.py:100-120) and the transactions table (app.py:137-138). They are rendering. Their data (category sums, monthly sums, the cumulative series) is modelled.
- The Prophet forecast (app.py:122-134). It is a floating-point model fit in a foreign library. Only its failure on fewer than two monthly rows is modelled, as `Dashboard.ForecastFits`: the page then never reaches the insight. Other ways the fit or the plot can fail are not modelled.
- CSV parsing itself, the CSV export and the base64 download link (app.py:30, 140-144). These are library I/O.
- The date and number parsing rules of pandas (app.py:36-37). They are parameters. Parsing is assumed to work cell by cell: pandas' `to_datetime` infers one format from the first non-empty cell and applies it to the whole column, so whether a cell parses can depend on the other cells. The parsers may return any `Date`; `Ingest.ValidParsers` states the assumption that they return only calendar dates, which `Ingest.LoadYieldsValidDates` carries to the loaded records. Dates have day resolution: a timestamp with a time of day is not modelled, so a record later in the day of the end date is kept here, but app.py would drop it.
- Amounts are exact cents, not floating point. A budget is compared in cents.
- NaN in the `Category` or `Payment Method` column, and descriptions that are not text, are not modelled. Categories and payment methods are always text, and each description cell is text or missing. The model does not track the column's type, so it misses the case below where every cell is missing.
- The catch-all exception handler (app.py:158-159).
- `Dashboard.RunStopsIff`: the date window is an input even when no row survives ingestion. In app.py, lines 42-44 would then take the minimum and maximum of an empty date column and pass them to the date picker before line 65 is reached. The model reports `NoMatches`, but app.py may instead raise into the handler at app.py:158-159. The model also reports `NoMatches` when the search is not blank and no row has a text description. In that case `read_csv` gives the `Description` column a numeric type, and the `.str` accessor at app.py:63 raises into the handler at app.py:158-159 instead of showing the warning of app.py:66. Likewise, `Run` succeeds when the search text is not a valid regular expression (for example `(`, `[` or `*`). `str.contains` at app.py:63 compiles the search as a pattern, so app.py raises `re.error` into the handler at app.py:158-159.
- `Filters.ApplyFiltersKeepsIff`: a Description column with no text in any row makes app.py:63 raise on a non-blank search, because the column is then numeric and has no `.str` accessor (the exception goes to app.py:158-159). The model instead treats each missing description as a non-match and keeps nothing.
- `Filters.ApplyFiltersKeepsIff`: the search is modelled as a plain substring test after ASCII lower-casing. app.py uses `str.contains` with its default regular-expression semantics and Unicode case-insensitivity, so a search containing regex metacharacters or non-ASCII letters can behave differently. A search that is not a valid pattern (`(`, `[`, `*`) raises in app.py, where the model matches it literally.
- `Timeline.SortByDateSpec`: states only date order and permutation. `sort_values` does not guarantee an order among equal dates. The model's sort happens to keep input order.
- `Filters.IsSpace`: whitespace for `strip()` is Python's list of whitespace characters. Other Unicode properties are not modelled.

Facts about app.py that the model keeps:

- The comparison month is looked up in the monthly sums of the filtered records (app.py:80). See Findings.
- `sort_values('Date')` is not a stable sort (app.py:117). The model proves nothing that depends on the order of equal dates.
- Ingestion does not report how many rows it dropped (app.py:38).
- An empty filtered set stops the page (app.py:65-67). No zero totals are computed.

## Findings

| source | as written | input that shows it | evidently intended | confidence | as-written member | corrected member |
|---|---|---|---|---|---|---|
| app.py:79-81 | `prev_month = start - MonthBegin(1)` is looked up in the monthly sums of the *filtered* records. A start after the 1st gives the window's own first month. A start on the 1st gives a month no filtered record can lie in. | Jan 2024 spending 10,000, Feb and Mar 2024 spending 15,000 each, window 2024-02-01 to 2024-03-31. The "Avg Spend / Month" metric (line 87) shows no change, and the insight says "not enough data". Window from 2024-02-05: the average is compared with February itself, "▼ 0.0% vs prev", "stable". | Compare the average with the calendar month before the window, taken from the whole validated data set. app.py's own comment at line 78 calls this "previous month". Its messages at lines 150 and 152 say the comparison is with "the previous month" and "last month". Here that is +50% against January, with the increase alert. | medium; not executed | `Dashboard.PriorMonthCounterexample` | `Kpis.PriorMonthPctChangeSpec` |

`Dashboard.Analyze` models app.py as written. Two lemmas state the general
effect of the as-written comparison: `Kpis.PctChangeStaysInsideWindow` and
`Dashboard.AnalyzeNeverComparesWithPriorMonth`.

The corrected comparison is `Kpis.PriorMonthPctChange`, with its properties
proved in `Kpis.PriorMonthPctChangeSpec` and `Kpis.PriorMonthBeforeWindow`.
The corrected pass, `Dashboard.AnalyzeCorrected`, uses it through
`Kpis.ComputeKpisCorrected`.
