/** The comprehensive ticker report (`get_ticker_data`): the four fixed label/value tables of
    `InfoTables`, then the optional IMPORTANT DATES, RECENT ANALYST RECOMMENDATIONS
    and RECENT UPGRADES/DOWNGRADES sections, joined with "\n". */
module TickerReport {
  import opened Values
  import opened InfoTables

  /** One value of the provider's calendar dictionary. */
  datatype CalendarItem = ItemDateTime(d: Date) | ItemOther
  datatype CalendarValue =
    | DateTime(d: Date)                   // a datetime instance
    | ListValue(items: seq<CalendarItem>) // a Python list
    | OtherValue                          // anything else (a number, a plain date, ...)

  /** The calendar dictionary, in its iteration order. */
  type Calendar = seq<(string, CalendarValue)>

  /** One row of the recommendations frame: exactly its six columns. */
  datatype Recommendation = Recommendation(
    period: Option<string>,
    strongBuy: Option<int>, buy: Option<int>, hold: Option<int>, sell: Option<int>, strongSell: Option<int>)

  /** One row of the upgrades/downgrades frame: its index (the grade date) and its columns. */
  datatype Upgrade = Upgrade(
    gradeDate: Date, firm: Option<string>, toGrade: Option<string>, fromGrade: Option<string>, action: Option<string>)

  /** The four provider calls, in the order the report makes them. `None` for the info and the
      calendar stands for a falsy result (None or an empty dictionary); for the two frames, for None. */
  datatype Sources = Sources(
    info: Result<Option<Info>>,
    calendar: Result<Option<Calendar>>,
    recommendations: Result<Option<seq<Recommendation>>>,
    upgrades: Result<Option<seq<Upgrade>>>)

  function NoInfoLine(ticker: string): string {
    "No information available for " + ticker
  }

  function FailureLine(ticker: string, reason: string): string {
    "Failed to retrieve data for " + ticker + ": " + reason
  }

  // ---------------------------------------------------------------- the fixed sections

  /** The eight strings the report always starts with: four titles, each followed by its table. */
  function FixedSections(info: Info, fmt: Formatters): seq<string> {
    [ "COMPANY OVERVIEW", fmt.render([], Cells(OverviewTable(info, fmt))),
      "\nKEY METRICS", fmt.render([], Cells(MetricsTable(info, fmt))),
      "\nPERFORMANCE METRICS", fmt.render([], Cells(PerformanceTable(info, fmt))),
      "\nANALYST COVERAGE", fmt.render([], Cells(AnalystTable(info, fmt))) ]
  }

  /** Python truthiness: in every field the four fixed tables test for truthiness, a zero reads as
      an absent key (the raw ratios and the analyst count are not tested, see `RawRatios`). */
  lemma ZeroReadsAsMissing(info: Info, fmt: Formatters)
    ensures FixedSections(ZerosCleared(info), fmt) == FixedSections(info, fmt)
  {
    OverviewUnchanged(info, fmt);
    MetricsUnchanged(info, fmt);
    PerformanceUnchanged(info, fmt);
    AnalystUnchanged(info, fmt);
  }

  // ---------------------------------------------------------------- IMPORTANT DATES

  predicate AllDateTimes(items: seq<CalendarItem>) {
    forall i :: 0 <= i < |items| ==> items[i].ItemDateTime?
  }

  /** The values the loop turns into a row. */
  predicate Listed(v: CalendarValue) {
    v.DateTime? || (v.ListValue? && AllDateTimes(v.items))
  }

  /** A list of datetimes with fewer than two elements: `value[0]` or `value[1]` raises IndexError
      (an empty list passes the `all(...)` test). */
  predicate IndexFails(v: CalendarValue) {
    v.ListValue? && AllDateTimes(v.items) && |v.items| < 2
  }

  const INDEX_ERROR := "list index out of range"

  /** What one calendar entry contributes: a row, nothing, or the exception. */
  function EntryRow(key: string, v: CalendarValue, fmt: Formatters): (r: Result<Option<seq<Cell>>>)
    ensures r.Err? <==> IndexFails(v)
    ensures r.Err? ==> r.reason == INDEX_ERROR
    ensures r == Ok(None) <==> !Listed(v)
    ensures r.Ok? && r.value.Some? ==> |r.value.value| == 2 && r.value.value[0] == Text(key)
    ensures v.DateTime? ==> r == Ok(Some([Text(key), Text(fmt.date(v.d))]))
    ensures Listed(v) && v.ListValue? && |v.items| >= 2 ==>
      r == Ok(Some([Text(key), Text(fmt.date(v.items[0].d) + "-" + fmt.date(v.items[1].d))]))
  {
    match v
    case DateTime(d) => Ok(Some([Text(key), Text(fmt.date(d))]))
    case ListValue(items) =>
      if !AllDateTimes(items) then Ok(None)
      else if |items| < 2 then Err(INDEX_ERROR)
      else Ok(Some([Text(key), Text(fmt.date(items[0].d) + "-" + fmt.date(items[1].d))]))
    case OtherValue => Ok(None)
  }

  /** The rows the calendar loop has appended after its first |cal| iterations, or the exception. */
  function DateRows(cal: Calendar, fmt: Formatters): Result<seq<seq<Cell>>> {
    if cal == [] then Ok([])
    else
      match DateRows(cal[..|cal| - 1], fmt)
      case Err(e) => Err(e)
      case Ok(rows) =>
        match EntryRow(cal[|cal| - 1].0, cal[|cal| - 1].1, fmt)
        case Err(e) => Err(e)
        case Ok(None) => Ok(rows)
        case Ok(Some(row)) => Ok(rows + [row])
  }

  /** The keys of the entries that yield a row, in iteration order. */
  function ListedKeys(cal: Calendar): seq<string> {
    KeepMap(cal, (e: (string, CalendarValue)) => Listed(e.1), (e: (string, CalendarValue)) => e.0)
  }

  /** The row a listed entry contributes once the loop has passed it: the key and the date text of
      `value.strftime`, or the dates of `value[0]` and `value[1]` joined by "-". A short
      list never gets here, since it raises instead; it is given the key alone. */
  function EntryCells(e: (string, CalendarValue), fmt: Formatters): seq<Cell> {
    match e.1
    case DateTime(d) => [Text(e.0), Text(fmt.date(d))]
    case ListValue(items) =>
      if |items| >= 2 && items[0].ItemDateTime? && items[1].ItemDateTime?
      then [Text(e.0), Text(fmt.date(items[0].d) + "-" + fmt.date(items[1].d))]
      else [Text(e.0)]
    case OtherValue => [Text(e.0)]
  }

  /** `[EntryCells(e) for e in calendar if Listed(e)]`: the date rows a completed loop should hold. */
  function ListedCells(cal: Calendar, fmt: Formatters): seq<seq<Cell>> {
    KeepMap(cal, (e: (string, CalendarValue)) => Listed(e.1), (e: (string, CalendarValue)) => EntryCells(e, fmt))
  }

  /** The calendar loop fails exactly when some entry is a too-short list of datetimes. */
  lemma {:induction false} DateRowsError(cal: Calendar, fmt: Formatters)
    ensures DateRows(cal, fmt).Err? <==> exists i :: 0 <= i < |cal| && IndexFails(cal[i].1)
    ensures DateRows(cal, fmt).Err? ==> DateRows(cal, fmt).reason == INDEX_ERROR
  {
    if cal != [] {
      var init := cal[..|cal| - 1];
      DateRowsError(init, fmt);
      assert forall i :: 0 <= i < |init| ==> init[i] == cal[i];
      if DateRows(init, fmt).Err? {
        var i :| 0 <= i < |init| && IndexFails(init[i].1);
        assert IndexFails(cal[i].1);
      }
    }
  }

  /** When the calendar loop completes, it has one two-cell row per listed entry, keyed by that
      entry, in iteration order. */
  lemma {:induction false} DateRowsKeys(cal: Calendar, fmt: Formatters)
    requires DateRows(cal, fmt).Ok?
    ensures var rows := DateRows(cal, fmt).value;
      |rows| == |ListedKeys(cal)| &&
      forall k :: 0 <= k < |rows| ==> |rows[k]| == 2 && rows[k][0] == Text(ListedKeys(cal)[k])
  {
    if cal != [] {
      var init, last := cal[..|cal| - 1], cal[|cal| - 1];
      assert cal == init + [last];
      DateRowsKeys(init, fmt);
      KeepMapAppend(init, [last], (e: (string, CalendarValue)) => Listed(e.1), (e: (string, CalendarValue)) => e.0);
    }
  }

  /** When the calendar loop completes, its rows are exactly those of the listed entries, in order,
      each holding that entry's key and its own date text. */
  lemma {:induction false} DateRowsCells(cal: Calendar, fmt: Formatters)
    requires DateRows(cal, fmt).Ok?
    ensures DateRows(cal, fmt).value == ListedCells(cal, fmt)
  {
    if cal != [] {
      var init, last := cal[..|cal| - 1], cal[|cal| - 1];
      assert cal == init + [last];
      DateRowsCells(init, fmt);
      KeepMapAppend(init, [last], (e: (string, CalendarValue)) => Listed(e.1),
                    (e: (string, CalendarValue)) => EntryCells(e, fmt));
      assert [last][1..] == [];
    }
  }

  /** The calendar loop as the server runs it: entries in order, appending a row for each datetime
      and each list of datetimes, and stopping at the IndexError of a too-short list. */
  method CollectDates(cal: Calendar, fmt: Formatters) returns (outcome: Result<seq<seq<Cell>>>)
    ensures outcome == DateRows(cal, fmt)
    ensures outcome.Err? <==> exists i :: 0 <= i < |cal| && IndexFails(cal[i].1)
  {
    var datesData: seq<seq<Cell>> := [];
    var i := 0;
    while i < |cal|
      invariant 0 <= i <= |cal|
      invariant DateRows(cal[..i], fmt) == Ok(datesData)
      invariant forall j :: 0 <= j < i ==> !IndexFails(cal[j].1)
    {
      var (key, value) := cal[i];
      assert cal[..i + 1][..i] == cal[..i];
      if value.DateTime? {
        datesData := datesData + [[Text(key), Text(fmt.date(value.d))]];
      } else if value.ListValue? && AllDateTimes(value.items) {
        if |value.items| < 2 {
          DateRowsError(cal, fmt);
          return Err(INDEX_ERROR);
        }
        var startDate := fmt.date(value.items[0].d);
        var endDate := fmt.date(value.items[1].d);
        datesData := datesData + [[Text(key), Text(startDate + "-" + endDate)]];
      }
      i := i + 1;
    }
    assert cal[..i] == cal;
    DateRowsError(cal, fmt);
    return Ok(datesData);
  }

  /** IMPORTANT DATES: present only when the calendar is truthy and some entry yields a row. */
  function DatesSection(cal: Option<Calendar>, fmt: Formatters): (r: Result<seq<string>>)
    ensures (cal.None? || cal.value == []) ==> r == Ok([])
    ensures cal.Some? && cal.value != [] && DateRows(cal.value, fmt).Err? ==> r == Err(DateRows(cal.value, fmt).reason)
    ensures r.Ok? && r.value != [] ==>
      cal.Some? && DateRows(cal.value, fmt).Ok? && DateRows(cal.value, fmt).value != [] &&
      r.value == ["\nIMPORTANT DATES", fmt.render(["Event", "Date"], DateRows(cal.value, fmt).value)]
  {
    if cal.None? || cal.value == [] then Ok([])
    else
      match DateRows(cal.value, fmt)
      case Err(e) => Err(e)
      case Ok(rows) =>
        if rows == [] then Ok([]) else Ok(["\nIMPORTANT DATES", fmt.render(["Event", "Date"], rows)])
  }

  lemma DatesSectionPresence(cal: Option<Calendar>, fmt: Formatters)
    requires DatesSection(cal, fmt).Ok?
    ensures DatesSection(cal, fmt).value != [] <==>
      cal.Some? && exists i :: 0 <= i < |cal.value| && Listed(cal.value[i].1)
  {
    if cal.Some? && cal.value != [] {
      DateRowsError(cal.value, fmt);
      if DateRows(cal.value, fmt).Ok? {
        DateRowsKeys(cal.value, fmt);
      }
    }
  }

  // ---------------------------------------------------------------- RECENT ANALYST RECOMMENDATIONS

  /** `all(pd.isna(val) for val in row.values)`. */
  predicate RecommendationEmpty(r: Recommendation) {
    r.period.None? && r.strongBuy.None? && r.buy.None? && r.hold.None? && r.sell.None? && r.strongSell.None?
  }

  /** A count cell: the raw integer, or NaN passed through unchanged. */
  function IntOrNan(o: Option<int>): (c: Cell)
    ensures c == Nan <==> o.None?
    ensures o.Some? ==> c == Int(o.value)
  {
    if o.Some? then Int(o.value) else Nan
  }

  /** The six raw values of a recommendation row, in column order. */
  function RecommendationRow(r: Recommendation): (row: seq<Cell>)
    ensures |row| == 6
    ensures row[0] == Nan <==> r.period.None?
    ensures r.period.Some? ==> row[0] == Text(r.period.value)
    ensures row[1..] == [IntOrNan(r.strongBuy), IntOrNan(r.buy), IntOrNan(r.hold), IntOrNan(r.sell), IntOrNan(r.strongSell)]
    ensures forall k :: 0 <= k < 6 ==> row[k] != NA
  {
    [ if r.period.Some? then Text(r.period.value) else Nan,
      IntOrNan(r.strongBuy), IntOrNan(r.buy), IntOrNan(r.hold), IntOrNan(r.sell), IntOrNan(r.strongSell) ]
  }

  function RecommendationRows(recs: seq<Recommendation>): seq<seq<Cell>> {
    KeepMap(recs, (r: Recommendation) => !RecommendationEmpty(r), RecommendationRow)
  }

  const RECOMMENDATION_HEADERS := ["Period", "Strong Buy", "Buy", "Hold", "Sell", "Strong Sell"]

  function RecommendationSection(recs: Option<seq<Recommendation>>, fmt: Formatters): (s: seq<string>)
    ensures s != [] <==> recs.Some? && exists i :: 0 <= i < |recs.value| && !RecommendationEmpty(recs.value[i])
    ensures s != [] ==> s == ["\nRECENT ANALYST RECOMMENDATIONS",
                              fmt.render(RECOMMENDATION_HEADERS, RecommendationRows(recs.value))]
  {
    if recs.None? || recs.value == [] then []
    else
      var rows := RecommendationRows(recs.value);
      if rows == [] then []
      else ["\nRECENT ANALYST RECOMMENDATIONS", fmt.render(RECOMMENDATION_HEADERS, rows)]
  }

  /** Dropping all-missing rows keeps the survivors in input order, and drops nothing else. */
  lemma RecommendationRowsOrder(a: seq<Recommendation>, b: seq<Recommendation>)
    ensures RecommendationRows(a + b) == RecommendationRows(a) + RecommendationRows(b)
    ensures (forall i :: 0 <= i < |a| ==> !RecommendationEmpty(a[i])) ==>
      |RecommendationRows(a)| == |a| &&
      forall i :: 0 <= i < |a| ==> RecommendationRows(a)[i] == RecommendationRow(a[i])
  {
    KeepMapAppend(a, b, (r: Recommendation) => !RecommendationEmpty(r), RecommendationRow);
    if forall i :: 0 <= i < |a| ==> !RecommendationEmpty(a[i]) {
      KeepMapAll(a, (r: Recommendation) => !RecommendationEmpty(r), RecommendationRow);
    }
  }

  // ---------------------------------------------------------------- RECENT UPGRADES/DOWNGRADES

  /** `all(pd.isna(val) for val in row.values)`: the index is not among the values. */
  predicate UpgradeEmpty(u: Upgrade) {
    u.firm.None? && u.toGrade.None? && u.fromGrade.None? && u.action.None?
  }

  function UpgradeRow(u: Upgrade, fmt: Formatters): (row: seq<Cell>)
    ensures |row| == 3
    ensures row[0] == Text(fmt.date(u.gradeDate))
    ensures row[1] == NA <==> u.firm.None?
    ensures u.firm.Some? ==> row[1] == Text(u.firm.value)
    ensures row[2] == Text(TextOr(u.fromGrade) + " → " + TextOr(u.toGrade))
  {
    [ Text(fmt.date(u.gradeDate)),
      TextOrNA(u.firm),
      Text(TextOr(u.fromGrade) + " → " + TextOr(u.toGrade)) ]
  }

  function UpgradeRows(upgrades: seq<Upgrade>, fmt: Formatters): seq<seq<Cell>> {
    KeepMap(upgrades, (u: Upgrade) => !UpgradeEmpty(u), (u: Upgrade) => UpgradeRow(u, fmt))
  }

  function UpgradeSection(upgrades: Option<seq<Upgrade>>, fmt: Formatters): (s: seq<string>)
    ensures s != [] <==> upgrades.Some? && exists i :: 0 <= i < |upgrades.value| && !UpgradeEmpty(upgrades.value[i])
    ensures s != [] ==> s == ["\nRECENT UPGRADES/DOWNGRADES",
                              fmt.render(["Date", "Firm", "Change"], UpgradeRows(upgrades.value, fmt))]
  {
    if upgrades.None? || upgrades.value == [] then []
    else
      var rows := UpgradeRows(upgrades.value, fmt);
      if rows == [] then []
      else ["\nRECENT UPGRADES/DOWNGRADES", fmt.render(["Date", "Firm", "Change"], rows)]
  }

  lemma UpgradeRowsOrder(a: seq<Upgrade>, b: seq<Upgrade>, fmt: Formatters)
    ensures UpgradeRows(a + b, fmt) == UpgradeRows(a, fmt) + UpgradeRows(b, fmt)
    ensures (forall i :: 0 <= i < |a| ==> !UpgradeEmpty(a[i])) ==>
      |UpgradeRows(a, fmt)| == |a| &&
      forall i :: 0 <= i < |a| ==> UpgradeRows(a, fmt)[i] == UpgradeRow(a[i], fmt)
  {
    KeepMapAppend(a, b, (u: Upgrade) => !UpgradeEmpty(u), (u: Upgrade) => UpgradeRow(u, fmt));
    if forall i :: 0 <= i < |a| ==> !UpgradeEmpty(a[i]) {
      KeepMapAll(a, (u: Upgrade) => !UpgradeEmpty(u), (u: Upgrade) => UpgradeRow(u, fmt));
    }
  }

  // ---------------------------------------------------------------- the report

  /** The optional sections, fetched and built in order; the first exception ends the report. */
  function OptionalSections(src: Sources, fmt: Formatters): Result<seq<string>> {
    match src.calendar
    case Err(e) => Err(e)
    case Ok(cal) =>
      match DatesSection(cal, fmt)
      case Err(e) => Err(e)
      case Ok(dates) =>
        match src.recommendations
        case Err(e) => Err(e)
        case Ok(recs) =>
          match src.upgrades
          case Err(e) => Err(e)
          case Ok(upgrades) => Ok(dates + RecommendationSection(recs, fmt) + UpgradeSection(upgrades, fmt))
  }

  /** The text `get_ticker_data(ticker)` returns. */
  function ReportText(ticker: string, src: Sources, fmt: Formatters): string {
    match src.info
    case Err(e) => FailureLine(ticker, e)
    case Ok(None) => NoInfoLine(ticker)
    case Ok(Some(info)) =>
      match OptionalSections(src, fmt)
      case Err(e) => FailureLine(ticker, e)
      case Ok(tail) => JoinLines(FixedSections(info, fmt) + tail)
  }

  /** The four `sections.extend` calls of the fixed part, over the already rendered tables. */
  method ExtendFixed(overview: string, metrics: string, performance: string, analyst: string)
    returns (sections: seq<string>)
    ensures sections == ["COMPANY OVERVIEW", overview, "\nKEY METRICS", metrics,
                         "\nPERFORMANCE METRICS", performance, "\nANALYST COVERAGE", analyst]
  {
    sections := [];
    sections := sections + ["COMPANY OVERVIEW", overview];
    sections := sections + ["\nKEY METRICS", metrics];
    sections := sections + ["\nPERFORMANCE METRICS", performance];
    sections := sections + ["\nANALYST COVERAGE", analyst];
  }

  /** The four fixed sections, appended title by table. */
  method FixedPart(info: Info, fmt: Formatters) returns (sections: seq<string>)
    ensures sections == FixedSections(info, fmt)
  {
    var overview := fmt.render([], Cells(OverviewTable(info, fmt)));
    var metrics := fmt.render([], Cells(MetricsTable(info, fmt)));
    var performance := fmt.render([], Cells(PerformanceTable(info, fmt)));
    var analyst := fmt.render([], Cells(AnalystTable(info, fmt)));
    sections := ExtendFixed(overview, metrics, performance, analyst);
  }

  /** The calendar block: extends `sections` with IMPORTANT DATES when the loop yields rows. */
  method ExtendDates(sections: seq<string>, calendar: Option<Calendar>, fmt: Formatters)
    returns (outcome: Result<seq<string>>)
    ensures DatesSection(calendar, fmt).Err? ==> outcome == DatesSection(calendar, fmt)
    ensures DatesSection(calendar, fmt).Ok? ==> outcome == Ok(sections + DatesSection(calendar, fmt).value)
  {
    if calendar.Some? && calendar.value != [] {
      var dates := CollectDates(calendar.value, fmt);
      if dates.Err? {
        return Err(dates.reason);
      }
      if dates.value != [] {
        return Ok(sections + ["\nIMPORTANT DATES", fmt.render(["Event", "Date"], dates.value)]);
      }
    }
    assert sections + [] == sections;
    return Ok(sections);
  }

  /** The recommendations block: extends `sections` when some row is not entirely missing. */
  method ExtendRecommendations(sections: seq<string>, recommendations: Option<seq<Recommendation>>, fmt: Formatters)
    returns (extended: seq<string>)
    ensures extended == sections + RecommendationSection(recommendations, fmt)
  {
    extended := sections;
    if recommendations.Some? && recommendations.value != [] {
      var recData := RecommendationRows(recommendations.value);
      if recData != [] {
        extended := extended + ["\nRECENT ANALYST RECOMMENDATIONS", fmt.render(RECOMMENDATION_HEADERS, recData)];
      }
    }
  }

  /** The upgrades/downgrades block: extends `sections` when some row is not entirely missing. */
  method ExtendUpgrades(sections: seq<string>, upgrades: Option<seq<Upgrade>>, fmt: Formatters)
    returns (extended: seq<string>)
    ensures extended == sections + UpgradeSection(upgrades, fmt)
  {
    extended := sections;
    if upgrades.Some? && upgrades.value != [] {
      var upgData := UpgradeRows(upgrades.value, fmt);
      if upgData != [] {
        extended := extended + ["\nRECENT UPGRADES/DOWNGRADES", fmt.render(["Date", "Firm", "Change"], upgData)];
      }
    }
  }

  /** The report as the server builds it: a `sections` list extended step by step, then joined;
      an exception from any provider call, or from the calendar loop, gives the failure line. */
  method GetTickerData(ticker: string, src: Sources, fmt: Formatters) returns (report: string)
    ensures report == ReportText(ticker, src, fmt)
    ensures src.info == Ok(None) ==> report == NoInfoLine(ticker)
    ensures src.info.Err? ==> report == FailureLine(ticker, src.info.reason)
  {
    if src.info.Err? {
      return FailureLine(ticker, src.info.reason);
    }
    if src.info.value.None? {
      return NoInfoLine(ticker);
    }
    var info := src.info.value.value;
    var sections := FixedPart(info, fmt);

    if src.calendar.Err? {
      return FailureLine(ticker, src.calendar.reason);
    }
    var withDates := ExtendDates(sections, src.calendar.value, fmt);
    if withDates.Err? {
      return FailureLine(ticker, withDates.reason);
    }
    sections := withDates.value;

    if src.recommendations.Err? {
      return FailureLine(ticker, src.recommendations.reason);
    }
    sections := ExtendRecommendations(sections, src.recommendations.value, fmt);

    if src.upgrades.Err? {
      return FailureLine(ticker, src.upgrades.reason);
    }
    sections := ExtendUpgrades(sections, src.upgrades.value, fmt);
    ConcatRegroup(FixedSections(info, fmt), DatesSection(src.calendar.value, fmt).value,
                  RecommendationSection(src.recommendations.value, fmt), UpgradeSection(src.upgrades.value, fmt));
    assert sections == FixedSections(info, fmt) + OptionalSections(src, fmt).value;
    return JoinLines(sections);
  }

  /** The successful report's layout: the first title, then every later part on a line of its
      own, in order: the first table, the other three fixed titles and tables (each of those titles
      carries its own leading newline, which makes the blank line), then the optional sections. */
  lemma ReportLayout(ticker: string, src: Sources, fmt: Formatters)
    requires src.info.Ok? && src.info.value.Some? && OptionalSections(src, fmt).Ok?
    ensures var info := src.info.value.value;
      ReportText(ticker, src, fmt) ==
        "COMPANY OVERVIEW" +
        NewlinePrefixed([fmt.render([], Cells(OverviewTable(info, fmt))),
                         "\nKEY METRICS", fmt.render([], Cells(MetricsTable(info, fmt))),
                         "\nPERFORMANCE METRICS", fmt.render([], Cells(PerformanceTable(info, fmt))),
                         "\nANALYST COVERAGE", fmt.render([], Cells(AnalystTable(info, fmt)))]
                        + OptionalSections(src, fmt).value)
  {
    var info := src.info.value.value;
    var fixed := FixedSections(info, fmt);
    var tail := OptionalSections(src, fmt).value;
    assert ReportText(ticker, src, fmt) == JoinLines(fixed + tail);
    JoinLinesFirst(fixed, tail);
    assert fixed[1..] == [fmt.render([], Cells(OverviewTable(info, fmt))),
                         "\nKEY METRICS", fmt.render([], Cells(MetricsTable(info, fmt))),
                         "\nPERFORMANCE METRICS", fmt.render([], Cells(PerformanceTable(info, fmt))),
                         "\nANALYST COVERAGE", fmt.render([], Cells(AnalystTable(info, fmt)))];
  }

  /** Which optional sections appear: each exactly when its source yields at least one row. */
  lemma OptionalSectionsShape(src: Sources, fmt: Formatters)
    requires OptionalSections(src, fmt).Ok?
    ensures src.calendar.Ok? && src.recommendations.Ok? && src.upgrades.Ok?
    ensures OptionalSections(src, fmt).value ==
      DatesSection(src.calendar.value, fmt).value +
      RecommendationSection(src.recommendations.value, fmt) +
      UpgradeSection(src.upgrades.value, fmt)
    ensures DatesSection(src.calendar.value, fmt).value != [] <==>
      src.calendar.value.Some? && exists i :: 0 <= i < |src.calendar.value.value| && Listed(src.calendar.value.value[i].1)
  {
    DatesSectionPresence(src.calendar.value, fmt);
  }

  /** The `except` around the whole report also catches the secondary fetches: a calendar,
      recommendations or upgrades call that raises fails the whole report instead of dropping
      its section. Each fetch is reached only when the ones before it succeeded. */
  lemma SecondaryFetchFails(ticker: string, src: Sources, fmt: Formatters)
    requires src.info.Ok? && src.info.value.Some?
    ensures src.calendar.Err? ==> ReportText(ticker, src, fmt) == FailureLine(ticker, src.calendar.reason)
    ensures src.calendar.Ok? && DatesSection(src.calendar.value, fmt).Ok? && src.recommendations.Err? ==>
      ReportText(ticker, src, fmt) == FailureLine(ticker, src.recommendations.reason)
    ensures (src.calendar.Ok? && DatesSection(src.calendar.value, fmt).Ok? && src.recommendations.Ok? &&
             src.upgrades.Err?) ==>
      ReportText(ticker, src, fmt) == FailureLine(ticker, src.upgrades.reason)
  {
  }

  /** The optional sections only add lines after the fixed part: a successful report is the
      join of the fixed sections followed by each optional part on a line of its own. */
  lemma OptionalSectionsAppended(ticker: string, src: Sources, fmt: Formatters)
    requires src.info.Ok? && src.info.value.Some? && OptionalSections(src, fmt).Ok?
    ensures ReportText(ticker, src, fmt) ==
      JoinLines(FixedSections(src.info.value.value, fmt)) + NewlinePrefixed(OptionalSections(src, fmt).value)
  {
    JoinLinesAppend(FixedSections(src.info.value.value, fmt), OptionalSections(src, fmt).value);
  }

  /** A too-short list of datetimes in a truthy calendar replaces the whole report by the failure line. */
  lemma ShortDateListFails(ticker: string, src: Sources, fmt: Formatters, i: nat)
    requires src.info.Ok? && src.info.value.Some? && src.calendar.Ok? && src.calendar.value.Some?
    requires i < |src.calendar.value.value| && IndexFails(src.calendar.value.value[i].1)
    ensures ReportText(ticker, src, fmt) == FailureLine(ticker, INDEX_ERROR)
  {
    DateRowsError(src.calendar.value.value, fmt);
  }

  /** The one-line "No information" message appears exactly when the info lookup is falsy. */
  lemma NoInfoExactly(ticker: string, src: Sources, fmt: Formatters)
    ensures ReportText(ticker, src, fmt) == NoInfoLine(ticker) <==> src.info == Ok(None)
  {
    var r := ReportText(ticker, src, fmt);
    assert NoInfoLine(ticker)[0] == 'N';
    if src.info.Ok? && src.info.value.Some? && OptionalSections(src, fmt).Ok? {
      var fixed := FixedSections(src.info.value.value, fmt);
      JoinLinesFirst(fixed, OptionalSections(src, fmt).value);
      assert r[0] == 'C';
    } else if src.info != Ok(None) {
      assert r[0] == 'F';
    }
  }
}
