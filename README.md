# Investor-Agent report formatting, modelled in Dafny

The investor-agent server turns market-data records into plain-text reports. It has seven
tools: ticker overview, options, price history, financial statements, institutional holders,
earnings history and insider trades. Each tool asks a data provider for one or more record
sets. It then projects every record onto a row of display cells and has `tabulate` lay the rows
out. A tool with several sections joins them with `"\n"`. This project models that decision
layer of `src/investor_agent/server.py`:

- when a report collapses to its one-line "No … for {ticker}" or "Failed …" message;
- which placeholder ("N/A", "-", or a literal 0) replaces each missing or suppressed field;
- how many rows each table has, and in what order;
- which rows and sections are dropped;
- how the sections are assembled.

The model is split into modules:

- `Values` (values.dfy) holds what every report shares:
  - optional fields (`Option`);
  - the display `Cell` (text, raw number, raw int, raw NaN, or a placeholder token);
  - the `Formatters` record;
  - the placeholder helpers;
  - Python's `"\n".join` (`JoinLines`);
  - the filtered list comprehension (`KeepMap`).
- `InfoTables` (info_tables.dfy) holds the four fixed label/value tables of `get_ticker_data`.
- `TickerReport` (ticker.dfy) models the rest of `get_ticker_data`:
  - the calendar loop, written as a method with loop invariants and proved against `DateRows`;
  - the recommendations and upgrades/downgrades filters;
  - the step-by-step `sections` list, proved against `ReportText`.
- reports.dfy holds one module per tool: `OptionsReport`, `PriceHistoryReport`, `StatementReport`,
  `EarningsReport` and `InsiderReport`.
- `HoldersReport` (holders.dfy) models `get_institutional_holders` and its `format_holder_data`.

Abstractions:

- Number and date text is never computed. The f-string conversions, `strftime`, `str`,
  `str.title` and `tabulate` are fields of `Formatters`. These are total functions the proofs
  never look inside, so every property holds for every way of printing.
- Only the branch tests are modelled with real numbers: truthiness (`!= 0`), `> 0` and `|v| >= 1e9`.
- Provider calls are inputs. A `Result` value stands for a returned value (`Ok`) or a raised exception (`Err`),
  in the two tools that catch exceptions. An `Option` stands for "None or empty".
- A NaN in a frame is `None`.
- Python's `int()` on a float is truncation toward zero (`Values.Trunc`).
- `df.head(n)` keeps its pandas meaning for a negative `n`: every row except the last `-n`.

Behaviours the code has that the model keeps as written:

- **Zero counts as missing in the overview.** Every truthiness-tested field of the four fixed
  tables shows "N/A" for 0. `ZeroReadsAsMissing` proves that, in those fields, the tables cannot
  tell 0 from an absent key. The raw P/E, forward P/E and PEG values are not tested and are shown
  even when they are 0 (`RawRatios`). The analyst count is likewise shown raw.
- **Short date lists fail the whole report.** Take a calendar entry that is a list of datetimes
  with fewer than two elements (an empty list passes the `all(...)` test). Reading `value[0]`
  (for an empty list) or `value[1]` raises IndexError, and the outer `except` replaces the whole report with
  `Failed to retrieve data for {ticker}: list index out of range` (`ShortDateListFails`).
- **Option side.** The side of an option is decided by whether the letter `C` appears anywhere
  in the contract symbol. Every symbol whose underlying ticker contains `C`, a put included, is therefore shown as
  a call (`PutOnTickerWithC`).
- **Missing values not shown as a placeholder.** Most missing values become "N/A" or "-". In three
  places the code shows something else, and the model follows the code. (A NaN that is present
  in a column read with `row.get` is a further case; see "## Left out".)
  - a missing recommendation count stays NaN and is handed to the renderer as is
    (`RecommendationRow`);
  - a missing open interest shows the integer 0;
  - an insider trade frame without a Shares column formats its default 0. A NaN share count in an
    existing column would print "nan"; the model, which reads NaN as missing, shows 0 there too
    (see "## Left out").
- **Fund-only holders.** When only fund holders exist, the holders report starts with the
  newline that the MUTUAL FUND HOLDERS title carries.
- **`top_n` is ignored.** `get_institutional_holders` does not use `top_n`. The method takes
  the argument, and its result is stated by a function that does not take it.

## Model

| member | source | states |
|---|---|---|
| `Values.WhenTruthy` | src/investor_agent/server.py:40-42 | Guarded value: "N/A" exactly when the field is missing or zero, otherwise the formatter's output for that value. |
| `Values.WhenPresent` | src/investor_agent/server.py:161 | `notnull` guard: "N/A" exactly when the value is missing, otherwise the formatter applied to it. |
| `Values.WhenPositive` | src/investor_agent/server.py:188-189 | `> 0` guard: "-" exactly when the value is missing or not strictly positive, otherwise the formatter applied to it. |
| `Values.TextOrNA` | src/investor_agent/server.py:37-39 | `get(k, 'N/A')` on text: "N/A" exactly when the key is absent, otherwise the value itself. |
| `Values.NumOrNA` | src/investor_agent/server.py:51-53 | `get(k, 'N/A')` on a number: "N/A" exactly when absent, otherwise the raw number unformatted. |
| `Values.TextOr` | src/investor_agent/server.py:121 | Default inside an f-string: "N/A" for an absent grade, otherwise the grade. |
| `Values.Trunc` | src/investor_agent/server.py:159-160 | `int(x)`: truncation toward zero, within 1 of x on the side of zero. |
| `Values.Abs` | src/investor_agent/server.py:212 | `abs(v)` is non-negative and equals v or -v. |
| `Values.JoinLinesFirst` | src/investor_agent/server.py:130 | `"\n".join`: the first part comes first and every later part is preceded by one newline. |
| `Values.JoinLinesAppend` | src/investor_agent/server.py:130 | Joining a non-empty list followed by more parts gives the join of the first list, then "\n" and each later part. |
| `Values.JoinLinesFour` | src/investor_agent/server.py:257 | Joining four parts puts exactly one newline between consecutive parts. |
| `Values.KeepMap` | src/investor_agent/server.py:97-108 | Filtered comprehension: never longer than its input; empty exactly when no element passes the filter; full length when every element passes. |
| `Values.KeepMapAppend` | src/investor_agent/server.py:106-107 | The filtered comprehension keeps input order: it distributes over concatenation. |
| `Values.KeepMapAll` | src/investor_agent/server.py:106-107 | When no element is dropped, row i is the projection of input record i. |
| `InfoTables.OverviewTable` | src/investor_agent/server.py:36-43 | Six rows labelled Company Name, Sector, Industry, Market Cap, Employees and Beta. Name, sector and industry show "N/A" exactly when absent, and the value itself when present. Market cap, employees and beta show "N/A" exactly when not truthy, and otherwise the grouped money, grouped integer and two-decimal forms of the value. |
| `InfoTables.RangeCell` | src/investor_agent/server.py:49 | The 52-week range is "N/A" unless both low and high are truthy; then it is "low - high" in the two-decimal money form. |
| `InfoTables.MetricsTable` | src/investor_agent/server.py:47-57 | Nine rows with the source's nine labels in order. Each formatted metric (price, 52-week range, market cap, price/book, dividend yield, short interest) is "N/A" exactly when its field is not truthy. |
| `InfoTables.FormattedMetrics` | src/investor_agent/server.py:47-57 | A truthy metric shows its own value: price in two-decimal money, the range as "low - high", market cap in grouped money, price/book in two decimals, dividend yield and short interest as percentages. |
| `InfoTables.RawRatios` | src/investor_agent/server.py:51-53 | Trailing P/E, forward P/E and PEG pass through raw, so a zero is shown. They are "N/A" exactly when the key is absent. |
| `InfoTables.PerformanceTable` | src/investor_agent/server.py:61-68 | Six rows with the source's six labels in order. Each is "N/A" exactly when its field is not truthy, and otherwise the field as a percentage (the four returns and margins) or in two decimals (debt to equity, current ratio). |
| `InfoTables.AnalystTable` | src/investor_agent/server.py:72-78 | Five rows with the source's five labels in order. The count and the recommendation are "N/A" exactly when absent, and otherwise `str` of the count and the title-cased key. The three targets are "N/A" exactly when not truthy, and otherwise their own two-decimal money form. |
| `TickerReport.FixedPart` | src/investor_agent/server.py:33-79 | Extending the section list title by table yields exactly the fixed sections. |
| `InfoTables.ZeroAsMissing` | src/investor_agent/server.py:40 | Clearing a zero keeps the field's truthiness, and yields None exactly for a non-truthy field. |
| `TickerReport.ZeroReadsAsMissing` | src/investor_agent/server.py:40-77 | Python truthiness: replacing every zero of a tested field by an absent key leaves all four fixed tables unchanged. |
| `TickerReport.EntryRow` | src/investor_agent/server.py:85-90 | One calendar entry. A datetime gives one row [key, date]. A list of datetimes with at least two elements gives [key, "d0-d1"] from elements 0 and 1. A shorter such list raises IndexError. Anything else is skipped. |
| `TickerReport.DateRowsError` | src/investor_agent/server.py:84-90 | The calendar loop fails exactly when some entry is a too-short list of datetimes, and the failure is "list index out of range". |
| `TickerReport.DateRowsKeys` | src/investor_agent/server.py:84-90 | A completed loop yields one two-cell row per listed entry, keyed by that entry, in iteration order. |
| `TickerReport.DateRowsCells` | src/investor_agent/server.py:84-90 | A completed loop's rows are exactly the listed entries' rows in order: the key with its own date (line 86) or its own two dates joined by "-" (lines 88-90). |
| `TickerReport.CollectDates` | src/investor_agent/server.py:83-90 | The `for key, value in calendar.items()` loop that appends rows computes `DateRows`. It fails exactly when some entry is a too-short date list. |
| `TickerReport.DatesSectionPresence` | src/investor_agent/server.py:82-93 | IMPORTANT DATES appears exactly when the calendar is truthy and some entry yields a row. |
| `TickerReport.DatesSection` | src/investor_agent/server.py:81-92 | A missing or empty calendar gives no section. A failing loop passes its exception on. A present section is the "\nIMPORTANT DATES" title followed by the table of the loop's rows under the headers Event and Date. |
| `TickerReport.ExtendDates` | src/investor_agent/server.py:82-93 | The calendar block either appends exactly the dates section or propagates the loop's exception. |
| `TickerReport.RecommendationRow` | src/investor_agent/server.py:97-105 | Six raw cells in column order: the period, then strong buy, buy, hold, sell and strong sell. A missing value stays NaN and is never "N/A". |
| `TickerReport.RecommendationSection` | src/investor_agent/server.py:96-113 | The section appears exactly when some row is not entirely missing. It is then the title followed by the table of surviving rows. |
| `TickerReport.RecommendationRowsOrder` | src/investor_agent/server.py:97-108 | Dropping all-NaN rows preserves the order of the survivors. With no all-NaN row, the table is the row-by-row projection. |
| `TickerReport.ExtendRecommendations` | src/investor_agent/server.py:96-113 | The recommendations block appends exactly the recommendations section. |
| `TickerReport.UpgradeRow` | src/investor_agent/server.py:117-122 | Three cells: the formatted index date, the firm ("N/A" exactly when absent, otherwise the firm itself), and "from → to" with "N/A" for an absent grade. |
| `TickerReport.UpgradeSection` | src/investor_agent/server.py:116-128 | The section appears exactly when some row has a non-missing column value. It is then the title followed by the table. |
| `TickerReport.UpgradeRowsOrder` | src/investor_agent/server.py:117-125 | Dropping all-missing upgrade rows preserves order. With none dropped, the table is the row-by-row projection. |
| `TickerReport.ExtendUpgrades` | src/investor_agent/server.py:116-128 | The upgrades block appends exactly the upgrades section. |
| `TickerReport.GetTickerData` | src/investor_agent/server.py:25-134 | The step-by-step report equals `ReportText`. A falsy info gives exactly "No information available for {ticker}". A raised info fetch gives the failure line. |
| `TickerReport.ReportLayout` | src/investor_agent/server.py:33-130 | A successful report is "COMPANY OVERVIEW" followed by each later part on its own line: the fixed tables and titles in order, then the optional sections. |
| `TickerReport.OptionalSectionsShape` | src/investor_agent/server.py:81-128 | The optional part is dates, then recommendations, then upgrades. The dates section is present exactly when some calendar entry is listed. |
| `TickerReport.ShortDateListFails` | src/investor_agent/server.py:87-90 | A too-short list of datetimes in the calendar makes the whole report the failure line "list index out of range". |
| `TickerReport.NoInfoExactly` | src/investor_agent/server.py:29-31 | The "No information" line is returned exactly when the info lookup is falsy. |
| `TickerReport.SecondaryFetchFails` | src/investor_agent/server.py:81-134 | A raising calendar, recommendations or upgrades call, once the calls before it have succeeded, turns the whole report into "Failed to retrieve data for {ticker}: {e}". The section is not silently dropped. |
| `TickerReport.OptionalSectionsAppended` | src/investor_agent/server.py:130 | A successful report is the join of the fixed sections, followed by each optional part on a new line. The optional sections never change the fixed part. |
| `OptionsReport.ReportText` | src/investor_agent/server.py:147-170 | A raised exception gives "Failed to retrieve options data for {ticker}: {e}". A non-empty provider error is returned verbatim. A missing or empty error gives the table of `Head(df, num_options)`. |
| `OptionsReport.Head` | src/investor_agent/server.py:163 | `df.head(n)` is a prefix. Its length is min(n, len) for n ≥ 0, and len + n (not below 0) for negative n. |
| `OptionsReport.ContractRow` | src/investor_agent/server.py:155-161 | Six cells. The side is "C" exactly when the symbol contains 'C', else "P". A missing open interest is 0. The volume is "N/A" exactly when missing or not positive. The IV is "N/A" exactly when missing. |
| `OptionsReport.RowsAreHeadOfChain` | src/investor_agent/server.py:148-166 | Without a provider error, row i is contract i. There are min(num_options, \|df\|) rows for a non-negative limit, and \|df\| + num_options (not below 0) for a negative one. |
| `OptionsReport.PutOnTickerWithC` | src/investor_agent/server.py:156 | Whenever the underlying ticker in a contract symbol contains C, the side is "C", so a put on such a ticker is classified as a call. |
| `PriceHistoryReport.BarRow` | src/investor_agent/server.py:183-190 | Six cells: the date, the open and the close in two-decimal money, and the grouped volume. Dividends are "-" exactly unless strictly positive. A split is "-" exactly unless strictly positive, and is otherwise "<n>:1". |
| `PriceHistoryReport.BarRows` | src/investor_agent/server.py:182-192 | One row per history row, in order. |
| `PriceHistoryReport.ReportText` | src/investor_agent/server.py:178-195 | "No historical data found for {ticker}" exactly when the history is missing or empty. Otherwise the titled table. |
| `StatementReport.StatementCell` | src/investor_agent/server.py:211-213 | "N/A" exactly when missing. The B form when \|v\| ≥ 1e9. The M form otherwise. |
| `StatementReport.LineRow` | src/investor_agent/server.py:210-215 | The metric name followed by one cell per period value, in column order. |
| `StatementReport.Rows` | src/investor_agent/server.py:209-217 | One row per metric, in index order: row i is the row of metric i. |
| `StatementReport.Headers` | src/investor_agent/server.py:219 | "Metric" followed by one formatted date per period column. |
| `StatementReport.RowsMatchHeader` | src/investor_agent/server.py:209-219 | For a rectangular frame, every row has 1 + (number of period columns) entries, the header's length. |
| `StatementReport.Title` | src/investor_agent/server.py:220-221 | The title starts with the upper-cased frequency, so its first letter is 'Q' for quarterly and 'A' for annual. |
| `StatementReport.ReportText` | src/investor_agent/server.py:204-223 | "No {type} statement data found for {ticker}" exactly when the frame is missing or has no rows or no columns. Otherwise title, newline, table. |
| `EarningsReport.QuarterRow` | src/investor_agent/server.py:268-274 | Five cells. Each EPS figure and the surprise percent are "N/A" exactly when missing, independently of each other. A present EPS figure is in two-decimal money, a present surprise is a one-decimal percentage. |
| `EarningsReport.QuarterRows` | src/investor_agent/server.py:267-276 | One row per earnings row, in order. |
| `EarningsReport.ReportText` | src/investor_agent/server.py:262-279 | "No earnings history data found for {ticker}" exactly when missing or empty. Otherwise the titled table. |
| `InsiderReport.TradeRow` | src/investor_agent/server.py:290-297 | Six cells. Insider, title and transaction are "N/A" exactly when absent, and the text itself when present. A missing share count (an absent Shares column; a NaN count is read as missing too) is formatted as 0. The value is "N/A" exactly when missing. |
| `InsiderReport.TradeRows` | src/investor_agent/server.py:289-299 | One row per trade, in order. |
| `InsiderReport.ReportText` | src/investor_agent/server.py:284-302 | "No insider trading data found for {ticker}" exactly when missing or empty. Otherwise the titled table. |
| `HoldersReport.HoldingRow` | src/investor_agent/server.py:235-242 | Six cells: holder, grouped shares, grouped money value, percent held, report date, percent change. Only the percent change can be "N/A", exactly when missing, and is otherwise the signed percent form. |
| `HoldersReport.HolderData` | src/investor_agent/server.py:233-244 | `format_holder_data`: one row per holder, in order, with no top-N cut. |
| `HoldersReport.Section` | src/investor_agent/server.py:249-255 | A holders section is absent exactly when its frame is missing or empty. Otherwise it is the title followed by the table. |
| `HoldersReport.GetInstitutionalHolders` | src/investor_agent/server.py:226-257 | The step-by-step report equals `ReportText`, which does not take `top_n`. With both frames empty the result is the one-line message. |
| `HoldersReport.Layouts` | src/investor_agent/server.py:247-257 | Both present: institutional title and table, a blank line, then fund title and table. Either one alone: only its section. |
| `HoldersReport.NoDataExactly` | src/investor_agent/server.py:230-231 | "No institutional holder data found for {ticker}" is returned exactly when both frames are missing or empty. |

## Left out

- Provider access: every `yfinance_utils` call is an input value. This includes the filtering
  done by `get_filtered_options`.
- Number, date and table text: the f-string formats, the `*100` and `/1e9` scalings, `strftime`,
  `pd.to_datetime`, `str.title` and `tabulate`'s column layout are uninterpreted `Formatters`
  fields. Nothing is proved about widths or alignment.
- Floating point: values are exact reals, so NaN is `None`. As a result, a NaN that is present in
  a column the code reads with `row.get(k, default)` reads as missing here. pandas would pass
  the NaN on, and it would print as "nan".
- `InsiderReport.TradeRow`: a NaN share count in an existing Shares column prints "nan"
  (src/investor_agent/server.py:295). The model shows the formatted 0 there, because it reads
  both NaN and an absent column as `None`.
- Required numeric columns (prices, volumes, holder figures, strike) are plain reals. A NaN in
  one of them would print "nan" and is not modelled.
- Values of any other kind are not modelled: a non-string name, information keys that hold
  `None`, extra frame columns beyond those listed in each record type, and repeated statement
  metric labels (the code reads those with `data.loc`).
- Exceptions: only an exception raised by a provider call is modelled, together with the
  IndexError of the calendar loop. The message text of a provider exception is an input.
  - Exceptions from formatting are not modelled.
  - The five tools without `try` let exceptions propagate. That is not modelled either.
- A `None` options frame returned with no error would raise inside the `try`. That is not
  modelled: the frame is always a sequence.
- Tool registration with FastMCP, logging setup and `logger.error` are infrastructure and are left out.
