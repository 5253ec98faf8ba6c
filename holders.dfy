/** The institutional holders report (`get_institutional_holders`): an INSTITUTIONAL HOLDERS
    section and a MUTUAL FUND HOLDERS section, each present only when its frame has rows. */
module HoldersReport {
  import opened Values

  /** One row of a holders frame. */
  datatype Holding = Holding(
    holder: string, shares: real, value: real, pctHeld: real, dateReported: Date, pctChange: Option<real>)

  const HEADERS := ["Holder", "Shares", "Value", "% Held", "Date Reported", "% Change"]

  /** `format_holder_data` for one row: only the percent change may be missing, and then shows "N/A". */
  function HoldingRow(h: Holding, fmt: Formatters): (row: seq<Cell>)
    ensures |row| == |HEADERS|
    ensures row[0] == Text(h.holder)
    ensures row[1] == Text(fmt.grouped0(h.shares))
    ensures row[2] == Text(fmt.moneyGrouped0(h.value))
    ensures row[3] == Text(fmt.percent2(h.pctHeld))
    ensures row[4] == Text(fmt.date(h.dateReported))
    ensures forall k :: 0 <= k < 5 ==> row[k] != NA
    ensures row[5] == NA <==> h.pctChange.None?
    ensures h.pctChange.Some? ==> row[5] == Text(fmt.signedPercent2(h.pctChange.value))
  {
    [ Text(h.holder),
      Text(fmt.grouped0(h.shares)),
      Text(fmt.moneyGrouped0(h.value)),
      Text(fmt.percent2(h.pctHeld)),
      Text(fmt.date(h.dateReported)),
      WhenPresent(h.pctChange, fmt.signedPercent2) ]
  }

  /** `format_holder_data`: every row of the frame, in order (no `top_n` cut). */
  function HolderData(holdings: seq<Holding>, fmt: Formatters): (rows: seq<seq<Cell>>)
    ensures |rows| == |holdings|
    ensures forall i :: 0 <= i < |holdings| ==> rows[i] == HoldingRow(holdings[i], fmt)
  {
    seq(|holdings|, i requires 0 <= i < |holdings| => HoldingRow(holdings[i], fmt))
  }

  /** `df is None or df.empty`. */
  predicate Empty(frame: Option<seq<Holding>>) {
    frame.None? || frame.value == []
  }

  const INSTITUTIONAL_TITLE := "INSTITUTIONAL HOLDERS:"
  const FUND_TITLE := "\nMUTUAL FUND HOLDERS:"

  function Section(title: string, frame: Option<seq<Holding>>, fmt: Formatters): (s: seq<string>)
    ensures s == [] <==> Empty(frame)
    ensures !Empty(frame) ==> s == [title, fmt.render(HEADERS, HolderData(frame.value, fmt))]
  {
    if Empty(frame) then [] else [title, fmt.render(HEADERS, HolderData(frame.value, fmt))]
  }

  function NoDataLine(ticker: string): string {
    "No institutional holder data found for " + ticker
  }

  /** The text `get_institutional_holders` returns; `top_n` is not one of its inputs. */
  function ReportText(ticker: string, institutional: Option<seq<Holding>>, funds: Option<seq<Holding>>, fmt: Formatters): string {
    if Empty(institutional) && Empty(funds) then NoDataLine(ticker)
    else JoinLines(Section(INSTITUTIONAL_TITLE, institutional, fmt) + Section(FUND_TITLE, funds, fmt))
  }

  /** The report as the server builds it: a `sections` list extended once per non-empty frame. */
  method GetInstitutionalHolders(ticker: string, institutional: Option<seq<Holding>>, funds: Option<seq<Holding>>,
                                 topN: int, fmt: Formatters) returns (report: string)
    ensures report == ReportText(ticker, institutional, funds, fmt)
    ensures Empty(institutional) && Empty(funds) ==> report == NoDataLine(ticker)
  {
    if Empty(institutional) && Empty(funds) {
      return NoDataLine(ticker);
    }
    var sections: seq<string> := [];
    if !Empty(institutional) {
      sections := sections + [INSTITUTIONAL_TITLE, fmt.render(HEADERS, HolderData(institutional.value, fmt))];
    }
    if !Empty(funds) {
      sections := sections + [FUND_TITLE, fmt.render(HEADERS, HolderData(funds.value, fmt))];
    }
    assert sections == Section(INSTITUTIONAL_TITLE, institutional, fmt) + Section(FUND_TITLE, funds, fmt);
    return JoinLines(sections);
  }

  /** The three layouts: both sections with a blank line between them, or just one. A report with
      only fund holders starts with the newline its title carries. */
  lemma Layouts(ticker: string, institutional: Option<seq<Holding>>, funds: Option<seq<Holding>>, fmt: Formatters)
    ensures var r := ReportText(ticker, institutional, funds, fmt);
      var inst := if Empty(institutional) then "" else fmt.render(HEADERS, HolderData(institutional.value, fmt));
      var fund := if Empty(funds) then "" else fmt.render(HEADERS, HolderData(funds.value, fmt));
      (!Empty(institutional) && !Empty(funds) ==>
         r == "INSTITUTIONAL HOLDERS:" + "\n" + inst + "\n" + "\nMUTUAL FUND HOLDERS:" + "\n" + fund) &&
      (!Empty(institutional) && Empty(funds) ==> r == "INSTITUTIONAL HOLDERS:" + "\n" + inst) &&
      (Empty(institutional) && !Empty(funds) ==> r == "\nMUTUAL FUND HOLDERS:" + "\n" + fund)
  {
    var inst := Section(INSTITUTIONAL_TITLE, institutional, fmt);
    var fund := Section(FUND_TITLE, funds, fmt);
    if !Empty(institutional) && !Empty(funds) {
      assert inst + fund == [inst[0], inst[1], fund[0], fund[1]];
      JoinLinesFour(inst[0], inst[1], fund[0], fund[1]);
    } else if !Empty(institutional) {
      assert inst + fund == [inst[0], inst[1]];
      JoinLinesTwo(inst[0], inst[1]);
    } else if !Empty(funds) {
      assert inst + fund == [fund[0], fund[1]];
      JoinLinesTwo(fund[0], fund[1]);
    }
  }

  /** The short message appears exactly when both frames are missing or empty. */
  lemma NoDataExactly(ticker: string, institutional: Option<seq<Holding>>, funds: Option<seq<Holding>>, fmt: Formatters)
    ensures ReportText(ticker, institutional, funds, fmt) == NoDataLine(ticker) <==> Empty(institutional) && Empty(funds)
  {
    if !Empty(institutional) || !Empty(funds) {
      var s := Section(INSTITUTIONAL_TITLE, institutional, fmt) + Section(FUND_TITLE, funds, fmt);
      JoinLinesFirst(s, []);
      assert s + [] == s && s[1..] + [] == s[1..];
      var r := ReportText(ticker, institutional, funds, fmt);
      assert r == s[0] + NewlinePrefixed(s[1..]);
      assert s[0] == INSTITUTIONAL_TITLE || s[0] == FUND_TITLE;
      assert r[0] == 'I' || r[0] == '\n';
      assert NoDataLine(ticker)[0] == 'N';
    }
  }
}
