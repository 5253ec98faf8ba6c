/** The options report (`get_available_options`): the first `num_options` contracts of the
    provider's filtered chain, one row each. */
module OptionsReport {
  import opened Values

  /** One row of the filtered options frame. */
  datatype Contract = Contract(
    contractSymbol: string,
    strike: real,
    expiryDate: string,
    openInterest: Option<real>,
    volume: Option<real>,
    impliedVolatility: Option<real>)

  /** The provider's `(df, error)` pair; `error` is None when the provider set none. */
  datatype Filtered = Filtered(contracts: seq<Contract>, error: Option<string>)

  const HEADERS := ["Type", "Strike", "Expiry", "OI", "Vol", "IV"]

  /** `df.head(n)`: the first n rows; for a negative n, all rows except the last -n. */
  function Head<T>(xs: seq<T>, n: int): (ys: seq<T>)
    ensures 0 <= n ==> |ys| == (if n < |xs| then n else |xs|)
    ensures n < 0 ==> |ys| == (if |xs| + n < 0 then 0 else |xs| + n)
    ensures ys == xs[..|ys|]
  {
    if 0 <= n then (if n < |xs| then xs[..n] else xs)
    else if |xs| + n < 0 then [] else xs[..|xs| + n]
  }

  /** One contract's row. The side comes from a letter test on the whole symbol; a missing open
      interest shows as the number 0; the volume shows only when present and positive. */
  function ContractRow(c: Contract, fmt: Formatters): (row: seq<Cell>)
    ensures |row| == |HEADERS|
    ensures row[0] == Text("C") <==> 'C' in c.contractSymbol
    ensures row[0] == Text("C") || row[0] == Text("P")
    ensures row[1] == Text(fmt.money2(c.strike))
    ensures row[2] == Text(c.expiryDate)
    ensures c.openInterest.None? ==> row[3] == Int(0)
    ensures c.openInterest.Some? ==> row[3] == Int(Trunc(c.openInterest.value))
    ensures row[4] == NA <==> !(c.volume.Some? && c.volume.value > 0.0)
    ensures row[4] != NA ==> row[4] == Int(Trunc(c.volume.value)) && row[4].n >= 0
    ensures row[5] == NA <==> c.impliedVolatility.None?
    ensures row[5] != NA ==> row[5] == Text(fmt.percent1(c.impliedVolatility.value))
  {
    [ Text(if 'C' in c.contractSymbol then "C" else "P"),
      Text(fmt.money2(c.strike)),
      Text(c.expiryDate),
      Int(if c.openInterest.Some? then Trunc(c.openInterest.value) else 0),
      if c.volume.Some? && c.volume.value > 0.0 then Int(Trunc(c.volume.value)) else NA,
      WhenPresent(c.impliedVolatility, fmt.percent1) ]
  }

  function ContractRows(contracts: seq<Contract>, fmt: Formatters): seq<seq<Cell>> {
    seq(|contracts|, i requires 0 <= i < |contracts| => ContractRow(contracts[i], fmt))
  }

  function FailureLine(tickerSymbol: string, reason: string): string {
    "Failed to retrieve options data for " + tickerSymbol + ": " + reason
  }

  /** The text `get_available_options` returns. A non-empty provider error is returned verbatim;
      an exception gives the failure line; otherwise the table of the first contracts. */
  function ReportText(tickerSymbol: string, fetched: Result<Filtered>, numOptions: int, fmt: Formatters): (r: string)
    ensures fetched.Err? ==> r == FailureLine(tickerSymbol, fetched.reason)
    ensures fetched.Ok? && fetched.value.error.Some? && fetched.value.error.value != "" ==>
      r == fetched.value.error.value
    ensures fetched.Ok? && (fetched.value.error.None? || fetched.value.error.value == "") ==>
      r == fmt.render(HEADERS, ContractRows(Head(fetched.value.contracts, numOptions), fmt))
  {
    match fetched
    case Err(e) => FailureLine(tickerSymbol, e)
    case Ok(Filtered(contracts, error)) =>
      if error.Some? && error.value != "" then error.value
      else fmt.render(HEADERS, ContractRows(Head(contracts, numOptions), fmt))
  }

  /** Without a provider error, the table shows the first contracts in their input order: the first
      min(num_options, |df|) of them for a non-negative limit, and all but the last -num_options
      for a negative one, as `df.head` gives. */
  lemma RowsAreHeadOfChain(tickerSymbol: string, contracts: seq<Contract>, numOptions: int, fmt: Formatters)
    ensures var rows := ContractRows(Head(contracts, numOptions), fmt);
      ReportText(tickerSymbol, Ok(Filtered(contracts, None)), numOptions, fmt) == fmt.render(HEADERS, rows) &&
      (0 <= numOptions ==> |rows| == (if numOptions < |contracts| then numOptions else |contracts|)) &&
      (numOptions < 0 ==> |rows| == (if |contracts| + numOptions < 0 then 0 else |contracts| + numOptions)) &&
      forall i :: 0 <= i < |rows| ==> rows[i] == ContractRow(contracts[i], fmt)
  {
    var head := Head(contracts, numOptions);
    assert forall i :: 0 <= i < |head| ==> head[i] == contracts[i];
  }

  /** The letter test reads the underlying's ticker too: every symbol whose underlying ticker
      contains "C" is shown with side "C", a put ("C250117P00050000") included. */
  lemma PutOnTickerWithC(underlying: string, rest: string, c: Contract, fmt: Formatters)
    requires 'C' in underlying && c.contractSymbol == underlying + rest
    ensures ContractRow(c, fmt)[0] == Text("C")
  {
    var i :| 0 <= i < |underlying| && underlying[i] == 'C';
    assert c.contractSymbol[i] == 'C';
  }
}

/** The price history report (`get_price_history`). */
module PriceHistoryReport {
  import opened Values

  datatype Period = D1 | D5 | M1 | M3 | M6 | Y1 | Y2 | Y5 | Y10 | Ytd | Max {
    function Name(): string {
      match this
      case D1 => "1d" case D5 => "5d" case M1 => "1mo" case M3 => "3mo" case M6 => "6mo"
      case Y1 => "1y" case Y2 => "2y" case Y5 => "5y" case Y10 => "10y" case Ytd => "ytd" case Max => "max"
    }
  }

  /** One row of the history frame, indexed by its trading day. */
  datatype Bar = Bar(day: Date, open: real, close: real, volume: real, dividends: Option<real>, stockSplits: Option<real>)

  const HEADERS := ["Date", "Open", "Close", "Volume", "Dividends", "Splits"]

  /** One bar's row: dividends and splits show only when strictly positive. */
  function BarRow(b: Bar, fmt: Formatters): (row: seq<Cell>)
    ensures |row| == |HEADERS|
    ensures row[0] == Text(fmt.date(b.day))
    ensures row[1] == Text(fmt.money2(b.open)) && row[2] == Text(fmt.money2(b.close))
    ensures row[3] == Text(fmt.grouped0(b.volume))
    ensures row[4] == DASH <==> !(b.dividends.Some? && b.dividends.value > 0.0)
    ensures row[4] != DASH ==> row[4] == Text(fmt.money4(b.dividends.value))
    ensures row[5] == DASH <==> !(b.stockSplits.Some? && b.stockSplits.value > 0.0)
    ensures row[5] != DASH ==> row[5] == Text(fmt.whole0(b.stockSplits.value) + ":1")
  {
    [ Text(fmt.date(b.day)),
      Text(fmt.money2(b.open)),
      Text(fmt.money2(b.close)),
      Text(fmt.grouped0(b.volume)),
      WhenPositive(b.dividends, fmt.money4),
      WhenPositive(b.stockSplits, (x: real) => fmt.whole0(x) + ":1") ]
  }

  function BarRows(bars: seq<Bar>, fmt: Formatters): (rows: seq<seq<Cell>>)
    ensures |rows| == |bars|
    ensures forall i :: 0 <= i < |bars| ==> rows[i] == BarRow(bars[i], fmt)
  {
    seq(|bars|, i requires 0 <= i < |bars| => BarRow(bars[i], fmt))
  }

  function NoDataLine(ticker: string): string {
    "No historical data found for " + ticker
  }

  /** The text `get_price_history` returns: the short message exactly when there is no bar. */
  function ReportText(ticker: string, history: Option<seq<Bar>>, period: Period, fmt: Formatters): (r: string)
    ensures r == NoDataLine(ticker) <==> history.None? || history.value == []
    ensures history.Some? && history.value != [] ==>
      r == "PRICE HISTORY FOR " + ticker + " (" + period.Name() + "):\n" + fmt.render(HEADERS, BarRows(history.value, fmt))
  {
    if history.None? || history.value == [] then NoDataLine(ticker)
    else
      var r := "PRICE HISTORY FOR " + ticker + " (" + period.Name() + "):\n" + fmt.render(HEADERS, BarRows(history.value, fmt));
      assert r[0] == 'P' && NoDataLine(ticker)[0] == 'N';
      r
  }
}

/** The financial statement report (`get_financial_statements`): metric rows across period columns. */
module StatementReport {
  import opened Values

  datatype Kind = Income | Balance | Cash {
    function Name(): string {
      match this case Income => "income" case Balance => "balance" case Cash => "cash"
    }
    function Upper(): string {
      match this case Income => "INCOME" case Balance => "BALANCE" case Cash => "CASH"
    }
  }

  datatype Frequency = Quarterly | Annual {
    function Upper(): string {
      match this case Quarterly => "QUARTERLY" case Annual => "ANNUAL"
    }
  }

  /** One metric row of the frame: its index label and one value per period column. */
  datatype Line = Line(metric: string, values: seq<Option<real>>)

  /** The statement frame: period-end columns and metric rows. */
  datatype Statement = Statement(periods: seq<Date>, lines: seq<Line>)

  /** Every metric row has one value per period column, as in any frame. */
  predicate Rectangular(s: Statement) {
    forall i :: 0 <= i < |s.lines| ==> |s.lines[i].values| == |s.periods|
  }

  /** A frame is empty when either axis has length zero. */
  predicate Empty(s: Statement) {
    s.lines == [] || s.periods == []
  }

  const BILLION: real := 1000000000.0

  /** One statement cell: "N/A" when missing, billions from an absolute value of 1e9 up, else millions. */
  function StatementCell(v: Option<real>, fmt: Formatters): (c: Cell)
    ensures c == NA <==> v.None?
    ensures v.Some? && Abs(v.value) >= BILLION ==> c == Text(fmt.billions1(v.value))
    ensures v.Some? && Abs(v.value) < BILLION ==> c == Text(fmt.millions1(v.value))
  {
    if v.None? then NA
    else if Abs(v.value) >= BILLION then Text(fmt.billions1(v.value))
    else Text(fmt.millions1(v.value))
  }

  function LineRow(line: Line, fmt: Formatters): (row: seq<Cell>)
    ensures |row| == 1 + |line.values|
    ensures row[0] == Text(line.metric)
    ensures forall j :: 0 <= j < |line.values| ==> row[1 + j] == StatementCell(line.values[j], fmt)
  {
    [Text(line.metric)] + seq(|line.values|, j requires 0 <= j < |line.values| => StatementCell(line.values[j], fmt))
  }

  /** One row per metric, in the frame's index order. */
  function Rows(s: Statement, fmt: Formatters): (rows: seq<seq<Cell>>)
    ensures |rows| == |s.lines|
    ensures forall i :: 0 <= i < |s.lines| ==> rows[i] == LineRow(s.lines[i], fmt)
  {
    seq(|s.lines|, i requires 0 <= i < |s.lines| => LineRow(s.lines[i], fmt))
  }

  function Headers(s: Statement, fmt: Formatters): (h: seq<string>)
    ensures |h| == 1 + |s.periods| && h[0] == "Metric"
    ensures forall j :: 0 <= j < |s.periods| ==> h[1 + j] == fmt.date(s.periods[j])
  {
    ["Metric"] + seq(|s.periods|, j requires 0 <= j < |s.periods| => fmt.date(s.periods[j]))
  }

  /** Every row is as long as the header: one metric name and one cell per period column. */
  lemma RowsMatchHeader(s: Statement, fmt: Formatters)
    requires Rectangular(s)
    ensures |Rows(s, fmt)| == |s.lines|
    ensures forall i :: 0 <= i < |s.lines| ==> |Rows(s, fmt)[i]| == |Headers(s, fmt)|
  {
  }

  /** The title opens with the upper-cased frequency, so its first letter is that of the frequency. */
  function Title(ticker: string, kind: Kind, frequency: Frequency): (t: string)
    ensures |t| > |frequency.Upper()| && t[..|frequency.Upper()|] == frequency.Upper()
    ensures t[0] == frequency.Upper()[0]
    ensures t[0] == (if frequency.Quarterly? then 'Q' else 'A')
  {
    frequency.Upper() + " " + kind.Upper() + " STATEMENT FOR " + ticker + ":\n" + "(Values in billions/millions USD)"
  }

  function NoDataLine(ticker: string, kind: Kind): string {
    "No " + kind.Name() + " statement data found for " + ticker
  }

  /** The text `get_financial_statements` returns: the short message exactly when the frame is missing or empty. */
  function ReportText(ticker: string, data: Option<Statement>, kind: Kind, frequency: Frequency, fmt: Formatters): (r: string)
    ensures r == NoDataLine(ticker, kind) <==> data.None? || Empty(data.value)
    ensures data.Some? && !Empty(data.value) ==>
      r == Title(ticker, kind, frequency) + "\n" + fmt.render(Headers(data.value, fmt), Rows(data.value, fmt))
  {
    if data.None? || Empty(data.value) then NoDataLine(ticker, kind)
    else
      var r := Title(ticker, kind, frequency) + "\n" + fmt.render(Headers(data.value, fmt), Rows(data.value, fmt));
      assert r[0] == Title(ticker, kind, frequency)[0] && NoDataLine(ticker, kind)[0] == 'N';
      r
  }
}

/** The earnings history report (`get_earnings_history`). */
module EarningsReport {
  import opened Values

  /** One row of the earnings frame, indexed by its report date. */
  datatype Quarter = Quarter(
    reportDate: Date, epsEstimate: Option<real>, epsActual: Option<real>,
    epsDifference: Option<real>, surprisePercent: Option<real>)

  const HEADERS := ["Date", "EPS Est", "EPS Act", "Surprise", "Surprise %"]

  /** Each of the four figures is "N/A" exactly when it is missing, independently of the others. */
  function QuarterRow(q: Quarter, fmt: Formatters): (row: seq<Cell>)
    ensures |row| == |HEADERS|
    ensures row[0] == Text(fmt.date(q.reportDate))
    ensures row[1] == NA <==> q.epsEstimate.None?
    ensures row[2] == NA <==> q.epsActual.None?
    ensures row[3] == NA <==> q.epsDifference.None?
    ensures row[4] == NA <==> q.surprisePercent.None?
    ensures q.epsEstimate.Some? ==> row[1] == Text(fmt.money2(q.epsEstimate.value))
    ensures q.epsActual.Some? ==> row[2] == Text(fmt.money2(q.epsActual.value))
    ensures q.epsDifference.Some? ==> row[3] == Text(fmt.money2(q.epsDifference.value))
    ensures q.surprisePercent.Some? ==> row[4] == Text(fmt.plainPercent1(q.surprisePercent.value))
  {
    [ Text(fmt.date(q.reportDate)),
      WhenPresent(q.epsEstimate, fmt.money2),
      WhenPresent(q.epsActual, fmt.money2),
      WhenPresent(q.epsDifference, fmt.money2),
      WhenPresent(q.surprisePercent, fmt.plainPercent1) ]
  }

  function QuarterRows(quarters: seq<Quarter>, fmt: Formatters): (rows: seq<seq<Cell>>)
    ensures |rows| == |quarters|
    ensures forall i :: 0 <= i < |quarters| ==> rows[i] == QuarterRow(quarters[i], fmt)
  {
    seq(|quarters|, i requires 0 <= i < |quarters| => QuarterRow(quarters[i], fmt))
  }

  function NoDataLine(ticker: string): string {
    "No earnings history data found for " + ticker
  }

  function ReportText(ticker: string, history: Option<seq<Quarter>>, fmt: Formatters): (r: string)
    ensures r == NoDataLine(ticker) <==> history.None? || history.value == []
    ensures history.Some? && history.value != [] ==>
      r == "EARNINGS HISTORY FOR " + ticker + ":\n" + fmt.render(HEADERS, QuarterRows(history.value, fmt))
  {
    if history.None? || history.value == [] then NoDataLine(ticker)
    else
      var r := "EARNINGS HISTORY FOR " + ticker + ":\n" + fmt.render(HEADERS, QuarterRows(history.value, fmt));
      assert r[0] == 'E' && NoDataLine(ticker)[0] == 'N';
      r
  }
}

/** The insider trades report (`get_insider_trades`). */
module InsiderReport {
  import opened Values

  /** One row of the insider transactions frame; None is a missing column. */
  datatype Trade = Trade(
    startDate: Date, insider: Option<string>, position: Option<string>, transaction: Option<string>,
    shares: Option<real>, value: Option<real>)

  const HEADERS := ["Date", "Insider", "Title", "Transaction", "Shares", "Value"]

  /** A missing share count is formatted as 0 (its `get` default); a missing value shows "N/A". */
  function TradeRow(t: Trade, fmt: Formatters): (row: seq<Cell>)
    ensures |row| == |HEADERS|
    ensures row[0] == Text(fmt.date(t.startDate))
    ensures row[1] == NA <==> t.insider.None?
    ensures row[2] == NA <==> t.position.None?
    ensures row[3] == NA <==> t.transaction.None?
    ensures t.insider.Some? ==> row[1] == Text(t.insider.value)
    ensures t.position.Some? ==> row[2] == Text(t.position.value)
    ensures t.transaction.Some? ==> row[3] == Text(t.transaction.value)
    ensures row[4] == Text(fmt.grouped0(if t.shares.Some? then t.shares.value else 0.0))
    ensures row[5] == NA <==> t.value.None?
    ensures t.value.Some? ==> row[5] == Text(fmt.moneyGrouped0(t.value.value))
  {
    [ Text(fmt.date(t.startDate)),
      TextOrNA(t.insider),
      TextOrNA(t.position),
      TextOrNA(t.transaction),
      Text(fmt.grouped0(if t.shares.Some? then t.shares.value else 0.0)),
      WhenPresent(t.value, fmt.moneyGrouped0) ]
  }

  function TradeRows(trades: seq<Trade>, fmt: Formatters): (rows: seq<seq<Cell>>)
    ensures |rows| == |trades|
    ensures forall i :: 0 <= i < |trades| ==> rows[i] == TradeRow(trades[i], fmt)
  {
    seq(|trades|, i requires 0 <= i < |trades| => TradeRow(trades[i], fmt))
  }

  function NoDataLine(ticker: string): string {
    "No insider trading data found for " + ticker
  }

  function ReportText(ticker: string, trades: Option<seq<Trade>>, fmt: Formatters): (r: string)
    ensures r == NoDataLine(ticker) <==> trades.None? || trades.value == []
    ensures trades.Some? && trades.value != [] ==>
      r == "INSIDER TRADES FOR " + ticker + ":\n" + fmt.render(HEADERS, TradeRows(trades.value, fmt))
  {
    if trades.None? || trades.value == [] then NoDataLine(ticker)
    else
      var r := "INSIDER TRADES FOR " + ticker + ":\n" + fmt.render(HEADERS, TradeRows(trades.value, fmt));
      assert r[0] == 'I' && NoDataLine(ticker)[0] == 'N';
      r
  }
}
