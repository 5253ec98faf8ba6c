/** The four fixed label/value tables of the ticker report, built from the provider's info
    dictionary, and how Python truthiness makes a zero read as a missing key there. */
module InfoTables {
  import opened Values

  /** The fields of the provider's info dictionary that the report reads; None is an absent key. */
  datatype Info = Info(
    longName: Option<string>,
    sector: Option<string>,
    industry: Option<string>,
    marketCap: Option<real>,
    fullTimeEmployees: Option<int>,
    beta: Option<real>,
    currentPrice: Option<real>,
    fiftyTwoWeekLow: Option<real>,
    fiftyTwoWeekHigh: Option<real>,
    trailingPE: Option<real>,
    forwardPE: Option<real>,
    trailingPegRatio: Option<real>,
    priceToBook: Option<real>,
    dividendYield: Option<real>,
    shortPercentOfFloat: Option<real>,
    returnOnEquity: Option<real>,
    returnOnAssets: Option<real>,
    profitMargins: Option<real>,
    operatingMargins: Option<real>,
    debtToEquity: Option<real>,
    currentRatio: Option<real>,
    numberOfAnalystOpinions: Option<int>,
    targetMeanPrice: Option<real>,
    targetHighPrice: Option<real>,
    targetLowPrice: Option<real>,
    recommendationKey: Option<string>
  )

  /** One `[label, value]` row of a fixed table. */
  datatype LabelRow = LabelRow(name: string, value: Cell)

  /** The two-cell rows handed to the renderer. */
  function Cells(rows: seq<LabelRow>): (table: seq<seq<Cell>>)
    ensures |table| == |rows|
    ensures forall i :: 0 <= i < |rows| ==> table[i] == [Text(rows[i].name), rows[i].value]
  {
    seq(|rows|, i requires 0 <= i < |rows| => [Text(rows[i].name), rows[i].value])
  }

  /** COMPANY OVERVIEW. */
  function OverviewTable(info: Info, fmt: Formatters): (rows: seq<LabelRow>)
    ensures |rows| == 6
    ensures rows[0].value == NA <==> info.longName.None?
    ensures rows[1].value == NA <==> info.sector.None?
    ensures rows[2].value == NA <==> info.industry.None?
    ensures rows[3].value == NA <==> !Truthy(info.marketCap)
    ensures rows[4].value == NA <==> !TruthyInt(info.fullTimeEmployees)
    ensures rows[5].value == NA <==> !Truthy(info.beta)
    ensures rows[0].name == "Company Name" && rows[1].name == "Sector" && rows[2].name == "Industry"
    ensures rows[3].name == "Market Cap" && rows[4].name == "Employees" && rows[5].name == "Beta"
    ensures info.longName.Some? ==> rows[0].value == Text(info.longName.value)
    ensures info.sector.Some? ==> rows[1].value == Text(info.sector.value)
    ensures info.industry.Some? ==> rows[2].value == Text(info.industry.value)
    ensures Truthy(info.marketCap) ==> rows[3].value == Text(fmt.moneyGrouped2(info.marketCap.value))
    ensures TruthyInt(info.fullTimeEmployees) ==> rows[4].value == Text(fmt.groupedInt(info.fullTimeEmployees.value))
    ensures Truthy(info.beta) ==> rows[5].value == Text(fmt.fixed2(info.beta.value))
  {
    [ LabelRow("Company Name", TextOrNA(info.longName)),
      LabelRow("Sector", TextOrNA(info.sector)),
      LabelRow("Industry", TextOrNA(info.industry)),
      LabelRow("Market Cap", WhenTruthy(info.marketCap, fmt.moneyGrouped2)),
      LabelRow("Employees", if TruthyInt(info.fullTimeEmployees)
                       then Text(fmt.groupedInt(info.fullTimeEmployees.value)) else NA),
      LabelRow("Beta", WhenTruthy(info.beta, fmt.fixed2)) ]
  }

  /** The 52-week range is shown only when both ends are truthy. */
  function RangeCell(low: Option<real>, high: Option<real>, fmt: Formatters): (c: Cell)
    ensures c == NA <==> !(Truthy(low) && Truthy(high))
    ensures c != NA ==> c == Text(fmt.money2(low.value) + " - " + fmt.money2(high.value))
  {
    if Truthy(low) && Truthy(high) then Text(fmt.money2(low.value) + " - " + fmt.money2(high.value))
    else NA
  }

  /** KEY METRICS (the three raw ratios in rows 3 to 5 are described by `RawRatios`). */
  function MetricsTable(info: Info, fmt: Formatters): (rows: seq<LabelRow>)
    ensures |rows| == 9
    ensures rows[0].value == NA <==> !Truthy(info.currentPrice)
    ensures rows[1].value == NA <==> !(Truthy(info.fiftyTwoWeekLow) && Truthy(info.fiftyTwoWeekHigh))
    ensures rows[2].value == NA <==> !Truthy(info.marketCap)
    ensures rows[6].value == NA <==> !Truthy(info.priceToBook)
    ensures rows[7].value == NA <==> !Truthy(info.dividendYield)
    ensures rows[8].value == NA <==> !Truthy(info.shortPercentOfFloat)
    ensures rows[0].name == "Current Price" && rows[1].name == "52-Week Range" && rows[2].name == "Market Cap"
    ensures rows[3].name == "Trailing P/E" && rows[4].name == "Forward P/E" && rows[5].name == "PEG Ratio"
    ensures rows[6].name == "Price/Book" && rows[7].name == "Dividend Yield" && rows[8].name == "Short % of Float"
  {
    [ LabelRow("Current Price", WhenTruthy(info.currentPrice, fmt.money2)),
      LabelRow("52-Week Range", RangeCell(info.fiftyTwoWeekLow, info.fiftyTwoWeekHigh, fmt)),
      LabelRow("Market Cap", WhenTruthy(info.marketCap, fmt.moneyGrouped2)),
      LabelRow("Trailing P/E", NumOrNA(info.trailingPE)),
      LabelRow("Forward P/E", NumOrNA(info.forwardPE)),
      LabelRow("PEG Ratio", NumOrNA(info.trailingPegRatio)),
      LabelRow("Price/Book", WhenTruthy(info.priceToBook, fmt.fixed2)),
      LabelRow("Dividend Yield", WhenTruthy(info.dividendYield, fmt.percent2)),
      LabelRow("Short % of Float", WhenTruthy(info.shortPercentOfFloat, fmt.percent2)) ]
  }

  /** The trailing P/E, forward P/E and PEG ratio pass through raw: unlike every formatted metric,
      a zero ratio is shown, and only an absent key gives "N/A". */
  lemma RawRatios(info: Info, fmt: Formatters)
    ensures var rows := MetricsTable(info, fmt);
      (rows[3].value == NA <==> info.trailingPE.None?) &&
      (rows[4].value == NA <==> info.forwardPE.None?) &&
      (rows[5].value == NA <==> info.trailingPegRatio.None?) &&
      (info.trailingPE.Some? ==> rows[3].value == Num(info.trailingPE.value)) &&
      (info.forwardPE.Some? ==> rows[4].value == Num(info.forwardPE.value)) &&
      (info.trailingPegRatio.Some? ==> rows[5].value == Num(info.trailingPegRatio.value))
  {
  }

  /** What each formatted metric shows when its field is truthy. */
  lemma FormattedMetrics(info: Info, fmt: Formatters)
    ensures var rows := MetricsTable(info, fmt);
      (Truthy(info.currentPrice) ==> rows[0].value == Text(fmt.money2(info.currentPrice.value))) &&
      (Truthy(info.fiftyTwoWeekLow) && Truthy(info.fiftyTwoWeekHigh) ==>
         rows[1].value == Text(fmt.money2(info.fiftyTwoWeekLow.value) + " - " + fmt.money2(info.fiftyTwoWeekHigh.value))) &&
      (Truthy(info.marketCap) ==> rows[2].value == Text(fmt.moneyGrouped2(info.marketCap.value))) &&
      (Truthy(info.priceToBook) ==> rows[6].value == Text(fmt.fixed2(info.priceToBook.value))) &&
      (Truthy(info.dividendYield) ==> rows[7].value == Text(fmt.percent2(info.dividendYield.value))) &&
      (Truthy(info.shortPercentOfFloat) ==> rows[8].value == Text(fmt.percent2(info.shortPercentOfFloat.value)))
  {
  }

  /** PERFORMANCE METRICS. */
  function PerformanceTable(info: Info, fmt: Formatters): (rows: seq<LabelRow>)
    ensures |rows| == 6
    ensures rows[0].value == NA <==> !Truthy(info.returnOnEquity)
    ensures rows[1].value == NA <==> !Truthy(info.returnOnAssets)
    ensures rows[2].value == NA <==> !Truthy(info.profitMargins)
    ensures rows[3].value == NA <==> !Truthy(info.operatingMargins)
    ensures rows[4].value == NA <==> !Truthy(info.debtToEquity)
    ensures rows[5].value == NA <==> !Truthy(info.currentRatio)
    ensures rows[0].name == "Return on Equity" && rows[1].name == "Return on Assets" && rows[2].name == "Profit Margin"
    ensures rows[3].name == "Operating Margin" && rows[4].name == "Debt to Equity" && rows[5].name == "Current Ratio"
    ensures Truthy(info.returnOnEquity) ==> rows[0].value == Text(fmt.percent2(info.returnOnEquity.value))
    ensures Truthy(info.returnOnAssets) ==> rows[1].value == Text(fmt.percent2(info.returnOnAssets.value))
    ensures Truthy(info.profitMargins) ==> rows[2].value == Text(fmt.percent2(info.profitMargins.value))
    ensures Truthy(info.operatingMargins) ==> rows[3].value == Text(fmt.percent2(info.operatingMargins.value))
    ensures Truthy(info.debtToEquity) ==> rows[4].value == Text(fmt.fixed2(info.debtToEquity.value))
    ensures Truthy(info.currentRatio) ==> rows[5].value == Text(fmt.fixed2(info.currentRatio.value))
  {
    [ LabelRow("Return on Equity", WhenTruthy(info.returnOnEquity, fmt.percent2)),
      LabelRow("Return on Assets", WhenTruthy(info.returnOnAssets, fmt.percent2)),
      LabelRow("Profit Margin", WhenTruthy(info.profitMargins, fmt.percent2)),
      LabelRow("Operating Margin", WhenTruthy(info.operatingMargins, fmt.percent2)),
      LabelRow("Debt to Equity", WhenTruthy(info.debtToEquity, fmt.fixed2)),
      LabelRow("Current Ratio", WhenTruthy(info.currentRatio, fmt.fixed2)) ]
  }

  /** ANALYST COVERAGE. The analyst count is `str()` of the raw value, so a zero count is shown;
      the recommendation key is title-cased, and "N/A".title() is "N/A" again. */
  function AnalystTable(info: Info, fmt: Formatters): (rows: seq<LabelRow>)
    ensures |rows| == 5
    ensures rows[0].value == NA <==> info.numberOfAnalystOpinions.None?
    ensures rows[1].value == NA <==> !Truthy(info.targetMeanPrice)
    ensures rows[2].value == NA <==> !Truthy(info.targetHighPrice)
    ensures rows[3].value == NA <==> !Truthy(info.targetLowPrice)
    ensures rows[4].value == NA <==> info.recommendationKey.None?
    ensures rows[0].name == "Analyst Count" && rows[1].name == "Mean Target" && rows[2].name == "High Target"
    ensures rows[3].name == "Low Target" && rows[4].name == "Recommendation"
    ensures info.numberOfAnalystOpinions.Some? ==> rows[0].value == Text(fmt.intText(info.numberOfAnalystOpinions.value))
    ensures Truthy(info.targetMeanPrice) ==> rows[1].value == Text(fmt.money2(info.targetMeanPrice.value))
    ensures Truthy(info.targetHighPrice) ==> rows[2].value == Text(fmt.money2(info.targetHighPrice.value))
    ensures Truthy(info.targetLowPrice) ==> rows[3].value == Text(fmt.money2(info.targetLowPrice.value))
    ensures info.recommendationKey.Some? ==> rows[4].value == Text(fmt.title(info.recommendationKey.value))
  {
    [ LabelRow("Analyst Count", if info.numberOfAnalystOpinions.Some?
                           then Text(fmt.intText(info.numberOfAnalystOpinions.value)) else NA),
      LabelRow("Mean Target", WhenTruthy(info.targetMeanPrice, fmt.money2)),
      LabelRow("High Target", WhenTruthy(info.targetHighPrice, fmt.money2)),
      LabelRow("Low Target", WhenTruthy(info.targetLowPrice, fmt.money2)),
      LabelRow("Recommendation", if info.recommendationKey.Some?
                            then Text(fmt.title(info.recommendationKey.value)) else NA) ]
  }

  /** A zero read from the dictionary behaves as a missing key wherever truthiness decides. */
  function ZeroAsMissing(o: Option<real>): (r: Option<real>)
    ensures Truthy(r) == Truthy(o)
    ensures r.None? <==> !Truthy(o)
  {
    if Truthy(o) then o else None
  }

  /** The info record with every truthiness-tested numeric field that is zero replaced by an absent key. */
  function ZerosCleared(info: Info): Info {
    info.(marketCap := ZeroAsMissing(info.marketCap),
          fullTimeEmployees := if TruthyInt(info.fullTimeEmployees) then info.fullTimeEmployees else None,
          beta := ZeroAsMissing(info.beta),
          currentPrice := ZeroAsMissing(info.currentPrice),
          fiftyTwoWeekLow := ZeroAsMissing(info.fiftyTwoWeekLow),
          fiftyTwoWeekHigh := ZeroAsMissing(info.fiftyTwoWeekHigh),
          priceToBook := ZeroAsMissing(info.priceToBook),
          dividendYield := ZeroAsMissing(info.dividendYield),
          shortPercentOfFloat := ZeroAsMissing(info.shortPercentOfFloat),
          returnOnEquity := ZeroAsMissing(info.returnOnEquity),
          returnOnAssets := ZeroAsMissing(info.returnOnAssets),
          profitMargins := ZeroAsMissing(info.profitMargins),
          operatingMargins := ZeroAsMissing(info.operatingMargins),
          debtToEquity := ZeroAsMissing(info.debtToEquity),
          currentRatio := ZeroAsMissing(info.currentRatio),
          targetMeanPrice := ZeroAsMissing(info.targetMeanPrice),
          targetHighPrice := ZeroAsMissing(info.targetHighPrice),
          targetLowPrice := ZeroAsMissing(info.targetLowPrice))
  }

  /** A guarded cell reads the same from a zero as from an absent key. */
  lemma ZeroCellAsMissing(o: Option<real>, f: real -> string)
    ensures WhenTruthy(ZeroAsMissing(o), f) == WhenTruthy(o, f)
  {
  }

  lemma OverviewUnchanged(info: Info, fmt: Formatters)
    ensures OverviewTable(ZerosCleared(info), fmt) == OverviewTable(info, fmt)
  {
    ZeroCellAsMissing(info.marketCap, fmt.moneyGrouped2);
    ZeroCellAsMissing(info.beta, fmt.fixed2);
  }

  lemma MetricsUnchanged(info: Info, fmt: Formatters)
    ensures MetricsTable(ZerosCleared(info), fmt) == MetricsTable(info, fmt)
  {
    ZeroCellAsMissing(info.currentPrice, fmt.money2);
    ZeroCellAsMissing(info.marketCap, fmt.moneyGrouped2);
    ZeroCellAsMissing(info.priceToBook, fmt.fixed2);
    ZeroCellAsMissing(info.dividendYield, fmt.percent2);
    ZeroCellAsMissing(info.shortPercentOfFloat, fmt.percent2);
  }

  lemma PerformanceUnchanged(info: Info, fmt: Formatters)
    ensures PerformanceTable(ZerosCleared(info), fmt) == PerformanceTable(info, fmt)
  {
    ZeroCellAsMissing(info.returnOnEquity, fmt.percent2);
    ZeroCellAsMissing(info.returnOnAssets, fmt.percent2);
    ZeroCellAsMissing(info.profitMargins, fmt.percent2);
    ZeroCellAsMissing(info.operatingMargins, fmt.percent2);
    ZeroCellAsMissing(info.debtToEquity, fmt.fixed2);
    ZeroCellAsMissing(info.currentRatio, fmt.fixed2);
  }

  lemma AnalystUnchanged(info: Info, fmt: Formatters)
    ensures AnalystTable(ZerosCleared(info), fmt) == AnalystTable(info, fmt)
  {
    ZeroCellAsMissing(info.targetMeanPrice, fmt.money2);
    ZeroCellAsMissing(info.targetHighPrice, fmt.money2);
    ZeroCellAsMissing(info.targetLowPrice, fmt.money2);
  }
}
