/**
 * scripts/compute_pnl_normalized.py: the same per-symbol FIFO pass as the
 * dashboard, then a USD rate per quote currency, one report line per symbol
 * and the report sorted by its USD estimate, largest first, lines without an
 * estimate last.
 */
module PnlNormalized {
  import opened Wrappers
  import opened Text
  import opened LotBook
  import opened Rates
  import UiApp

  /** The message the script exits with when the `trades` table is empty. */
  const NoTrades: string := "No trades found."

  // ---------------------------------------------------------------------------
  // The per-symbol FIFO pass
  // ---------------------------------------------------------------------------

  /** `str(r["side"])`: a missing side prints as "None". */
  function SideText(side: Option<string>): string {
    match side
    case Some(s) => s
    case None => "None"
  }

  /** How the script reads a row: `str(side).lower()`, `float(amount or 0.0)`, `float(price or 0.0)`. */
  function Decode(row: TradeRow): (e: Entry)
    ensures e.symbol == row.symbol
    ensures row.side.None? ==> e.side == "none"
    ensures e.amount == 0.0 <==> row.amount.None? || row.amount == Some(0.0)
    ensures row.price.None? ==> e.price == 0.0
  {
    var none := "None";
    assert Lower(none)[0] == 'n';
    Entry(row.symbol, Lower(SideText(row.side)), row.amount.GetOr(0.0), row.price.GetOr(0.0))
  }

  /** The module-level loop that fills `lots` and `realized_quote`. */
  method RealizedQuote(rows: seq<TradeRow>) returns (realized: map<string, real>)
    ensures realized == Replay(Decoded(rows, Decode)).realized
  {
    var lots: map<string, seq<Lot>> := map[];
    realized := map[];
    for i := 0 to |rows|
      invariant Book(lots, realized) == Replay(Decoded(rows[..i], Decode))
    {
      ReplayOneMoreRow(rows, Decode, i);
      var r := rows[i];
      var sym := r.symbol;
      var side := Lower(SideText(r.side));
      var amt := r.amount.GetOr(0.0);
      var px := r.price.GetOr(0.0);
      if amt == 0.0 {
        continue;
      }
      if side == "buy" {
        lots := lots[sym := QueueOf(lots, sym) + [Lot(amt, px)]];
      } else if side == "sell" {
        lots, realized := Sell(lots, realized, sym, amt, px);
      }
    }
    assert rows[..|rows|] == rows;
  }

  /** A row without a side reads as the side "none" and, like a zero or missing amount, changes nothing. */
  lemma IncompleteRowsAreSkipped(book: Book, row: TradeRow)
    requires row.amount.None? || row.amount == Some(0.0) || row.side.None?
    ensures row.side.None? ==> Decode(row).side == "none"
    ensures Apply(book, Decode(row)) == book
  {
    if row.side.None? {
      var none := "None";
      assert Lower(none)[0] == 'n';
      assert Lower(none) == "none";
    }
  }

  /** The script reads every row to the same effect as the dashboard, missing side included. */
  lemma RowHasSameEffectAsDashboard(book: Book, row: TradeRow)
    ensures Apply(book, Decode(row)) == Apply(book, UiApp.Decode(row))
  {
    if row.side.None? {
      IncompleteRowsAreSkipped(book, row);
      UiApp.IncompleteRowsAreSkipped(book, row);
    }
  }

  /** Hence the script's realized totals and open lots are the dashboard's, for every list of rows. */
  lemma {:induction false} SameBooksAsDashboard(rows: seq<TradeRow>)
    ensures Replay(Decoded(rows, Decode)) == Replay(Decoded(rows, UiApp.Decode))
  {
    if rows != [] {
      var init := rows[..|rows| - 1];
      SameBooksAsDashboard(init);
      RowHasSameEffectAsDashboard(Replay(Decoded(init, Decode)), rows[|rows| - 1]);
      assert Decoded(rows, Decode)[..|rows| - 1] == Decoded(init, Decode);
      assert Decoded(rows, UiApp.Decode)[..|rows| - 1] == Decoded(init, UiApp.Decode);
    }
  }

  // ---------------------------------------------------------------------------
  // Rates and report lines
  // ---------------------------------------------------------------------------

  /** `{quote_of(s) for s in realized_quote.keys()}`. */
  function NeededQuotes(realized: map<string, real>): (quotes: set<string>)
    ensures forall s :: s in realized ==> QuoteOf(s) in quotes
    ensures quotes == {} <==> realized == map[]
  {
    set s | s in realized :: QuoteOf(s)
  }

  /** The `quote_to_usd` loop: a rate for each needed quote, by the script's rule. */
  method QuoteToUsd(needed: set<string>, fetch: Oracle) returns (rates: map<string, Option<real>>)
    ensures rates.Keys == needed
    ensures forall q :: q in rates ==> rates[q] == ScriptRate(q, fetch)
  {
    rates := map[];
    var todo := needed;
    while todo != {}
      invariant todo <= needed && rates.Keys == needed - todo
      invariant forall q :: q in rates ==> rates[q] == ScriptRate(q, fetch)
      decreases todo
    {
      var q :| q in todo;
      if q in ScriptStable {
        rates := rates[q := Some(1.0)];
      } else if q == "USD" {
        rates := rates[q := Some(1.0)];
      } else {
        var t := fetch(Pair(q, "USDT"));
        if t.Answered? {
          rates := rates[q := if HasLast(t) then Some(t.last.value) else None];
        } else {
          // the USDT lookup raised: fall back to USDC
          var t2 := fetch(Pair(q, "USDC"));
          if t2.Answered? {
            rates := rates[q := if HasLast(t2) then Some(t2.last.value) else None];
          } else {
            rates := rates[q := None];
          }
        }
      }
      todo := todo - {q};
    }
  }

  /** `quote_to_usd.get(q)`. */
  function RateOf(rates: map<string, Option<real>>, quote: string): Option<real> {
    if quote in rates then rates[quote] else None
  }

  /** The normalisation loop: one line per symbol with its quote, rate and USD estimate. */
  method NormalizeRows(realized: map<string, real>, rates: map<string, Option<real>>) returns (lines: seq<ReportRow>)
    ensures Symbols(lines) == realized.Keys && DistinctSymbols(lines)
    ensures forall i :: 0 <= i < |lines| ==>
      lines[i] == RowFor(lines[i].symbol, realized[lines[i].symbol], RateOf(rates, QuoteOf(lines[i].symbol)))
  {
    lines := [];
    var todo := realized.Keys;
    while todo != {}
      invariant todo <= realized.Keys
      invariant Symbols(lines) == realized.Keys - todo && DistinctSymbols(lines)
      invariant LinesAtRates(lines, realized, rates)
      decreases todo
    {
      var sym :| sym in todo;
      var pnlQ := realized[sym];
      var q := QuoteOf(sym);
      var rate := RateOf(rates, q);
      var pnlUsd := if rate.Some? then Some(pnlQ * rate.value) else None;
      var line := ReportRow(sym, pnlQ, q, rate, pnlUsd);
      EstimateExactlyWithRate(sym, pnlQ, rate);
      SymbolsOfAppend(lines, line);
      LinesAtRatesAppend(lines, line, realized, rates);
      lines := lines + [line];
      todo := todo - {sym};
    }
  }

  /** Every line is the one the loop writes for its symbol at the rate table `rates`. */
  ghost predicate LinesAtRates(lines: seq<ReportRow>, realized: map<string, real>, rates: map<string, Option<real>>) {
    forall i :: 0 <= i < |lines| ==>
      lines[i].symbol in realized
      && lines[i] == RowFor(lines[i].symbol, realized[lines[i].symbol], RateOf(rates, QuoteOf(lines[i].symbol)))
  }

  lemma LinesAtRatesAppend(lines: seq<ReportRow>, line: ReportRow, realized: map<string, real>, rates: map<string, Option<real>>)
    requires LinesAtRates(lines, realized, rates)
    requires line.symbol in realized && line == RowFor(line.symbol, realized[line.symbol], RateOf(rates, QuoteOf(line.symbol)))
    ensures LinesAtRates(lines + [line], realized, rates)
  {
    var longer := lines + [line];
    assert forall i :: 0 <= i < |lines| ==> longer[i] == lines[i];
  }

  /** The line the script writes for a symbol with realized total `pnl`. */
  function ScriptLine(symbol: string, pnl: real, fetch: Oracle): ReportRow {
    RowFor(symbol, pnl, ScriptRate(QuoteOf(symbol), fetch))
  }

  // ---------------------------------------------------------------------------
  // Ordering
  // ---------------------------------------------------------------------------

  /** Descending by USD estimate with missing estimates last: may `a` come before `b`? */
  predicate RanksBefore(a: Option<real>, b: Option<real>) {
    b.None? || (a.Some? && a.value >= b.value)
  }

  /** `sort_values("pnl_USD_est", na_position="last", ascending=False)` has been applied: each line may precede the next. */
  predicate SortedByUsd(lines: seq<ReportRow>) {
    forall i :: 0 < i < |lines| ==> RanksBefore(lines[i - 1].pnlUsdEst, lines[i].pnlUsdEst)
  }

  /**
   * In sorted lines every line may precede every later one: estimates never
   * grow down the report, and once one is missing all later ones are.
   */
  lemma {:induction false} SortedLinesAreInReportOrder(lines: seq<ReportRow>, i: nat, j: nat)
    requires SortedByUsd(lines) && i < j < |lines|
    ensures RanksBefore(lines[i].pnlUsdEst, lines[j].pnlUsdEst)
    ensures lines[i].pnlUsdEst.None? ==> lines[j].pnlUsdEst.None?
    ensures lines[j].pnlUsdEst.Some? ==> lines[i].pnlUsdEst.Some? && lines[i].pnlUsdEst.value >= lines[j].pnlUsdEst.value
    decreases j - i
  {
    if i + 1 < j {
      SortedLinesAreInReportOrder(lines, i + 1, j);
      RanksBeforeIsTransitive(lines[i].pnlUsdEst, lines[i + 1].pnlUsdEst, lines[j].pnlUsdEst);
    }
  }

  lemma RanksBeforeIsTransitive(a: Option<real>, b: Option<real>, c: Option<real>)
    requires RanksBefore(a, b) && RanksBefore(b, c)
    ensures RanksBefore(a, c)
  {
  }

  /** Put `line` into sorted `lines` before the first line it may precede. */
  function Insert(line: ReportRow, lines: seq<ReportRow>): (r: seq<ReportRow>)
    ensures |r| == |lines| + 1
    ensures r[0] == line || (lines != [] && r[0] == lines[0])
    ensures multiset(r) == multiset(lines) + multiset{line}
  {
    if lines == [] then [line]
    else if RanksBefore(line.pnlUsdEst, lines[0].pnlUsdEst) then [line] + lines
    else
      assert lines == [lines[0]] + lines[1..];
      [lines[0]] + Insert(line, lines[1..])
  }

  /** Inserting into sorted lines keeps them sorted. */
  lemma {:induction false} InsertKeepsOrder(line: ReportRow, lines: seq<ReportRow>)
    requires SortedByUsd(lines)
    ensures SortedByUsd(Insert(line, lines))
  {
    if lines == [] {
    } else if RanksBefore(line.pnlUsdEst, lines[0].pnlUsdEst) {
      SortedCons(line, lines);
    } else {
      var rest := Insert(line, lines[1..]);
      assert lines == [lines[0]] + lines[1..];
      SortedCons(lines[0], lines[1..]);
      InsertKeepsOrder(line, lines[1..]);
      SortedCons(lines[0], rest);
    }
  }

  /** Inserting a line adds its symbol, and keeps symbols distinct when it is a new one. */
  lemma {:induction false} InsertAddsSymbol(line: ReportRow, lines: seq<ReportRow>)
    ensures Symbols(Insert(line, lines)) == Symbols(lines) + {line.symbol}
    ensures DistinctSymbols(lines) && line.symbol !in Symbols(lines) ==> DistinctSymbols(Insert(line, lines))
  {
    if lines == [] {
      SymbolsOfCons(line, []);
    } else if RanksBefore(line.pnlUsdEst, lines[0].pnlUsdEst) {
      SymbolsOfCons(line, lines);
    } else {
      var rest := Insert(line, lines[1..]);
      assert lines == [lines[0]] + lines[1..];
      SymbolsOfCons(lines[0], lines[1..]);
      InsertAddsSymbol(line, lines[1..]);
      SymbolsOfCons(lines[0], rest);
    }
  }

  /** Sortedness of a list with a line in front. */
  lemma SortedCons(line: ReportRow, lines: seq<ReportRow>)
    ensures SortedByUsd([line] + lines)
        <==> (lines != [] ==> RanksBefore(line.pnlUsdEst, lines[0].pnlUsdEst)) && SortedByUsd(lines)
  {
    var r := [line] + lines;
    if SortedByUsd(r) {
      forall i | 0 < i < |lines|
        ensures RanksBefore(lines[i - 1].pnlUsdEst, lines[i].pnlUsdEst)
      {
        assert r[i] == lines[i - 1] && r[i + 1] == lines[i];
        assert RanksBefore(r[i + 1 - 1].pnlUsdEst, r[i + 1].pnlUsdEst);
      }
      if lines != [] {
        assert RanksBefore(r[1 - 1].pnlUsdEst, r[1].pnlUsdEst);
      }
    }
    if (lines != [] ==> RanksBefore(line.pnlUsdEst, lines[0].pnlUsdEst)) && SortedByUsd(lines) {
      forall k | 0 < k < |r|
        ensures RanksBefore(r[k - 1].pnlUsdEst, r[k].pnlUsdEst)
      {
        if k > 1 {
          assert r[k - 1] == lines[k - 2] && r[k] == lines[k - 1];
        }
      }
    }
  }

  /** The symbols of a list with a line in front, and whether they stay distinct. */
  lemma SymbolsOfCons(line: ReportRow, lines: seq<ReportRow>)
    ensures Symbols([line] + lines) == {line.symbol} + Symbols(lines)
    ensures DistinctSymbols([line] + lines) <==> line.symbol !in Symbols(lines) && DistinctSymbols(lines)
  {
    var r := [line] + lines;
    assert forall k :: 0 < k < |r| ==> r[k] == lines[k - 1];
    assert Symbols(r) == {line.symbol} + Symbols(lines) by {
      forall s | s in Symbols(lines) ensures s in Symbols(r) {
        var k :| 0 <= k < |lines| && lines[k].symbol == s;
        assert r[k + 1] == lines[k];
      }
      assert r[0] == line;
    }
    if DistinctSymbols(r) {
      forall k | 0 <= k < |lines| ensures lines[k].symbol != line.symbol {
        assert r[k + 1] == lines[k] && r[0] == line;
        assert r[0].symbol != r[k + 1].symbol;
      }
      forall i, j | 0 <= i < j < |lines| ensures lines[i].symbol != lines[j].symbol {
        assert r[i + 1] == lines[i] && r[j + 1] == lines[j];
      }
    }
    if line.symbol !in Symbols(lines) && DistinctSymbols(lines) {
      forall i, j | 0 <= i < j < |r| ensures r[i].symbol != r[j].symbol {
        assert r[j] == lines[j - 1];
        if i > 0 {
          assert r[i] == lines[i - 1];
        } else {
          assert lines[j - 1].symbol in Symbols(lines);
        }
      }
    }
  }

  /** The report order: the lines sorted by USD estimate, a permutation of them. */
  function SortByUsd(lines: seq<ReportRow>): (r: seq<ReportRow>)
    ensures multiset(r) == multiset(lines)
    ensures SortedByUsd(r)
  {
    if lines == [] then []
    else
      assert lines == [lines[0]] + lines[1..];
      var rest := SortByUsd(lines[1..]);
      InsertKeepsOrder(lines[0], rest);
      Insert(lines[0], rest)
  }

  /** Sorting keeps the symbols, each still once. */
  lemma {:induction false} SortKeepsSymbols(lines: seq<ReportRow>)
    ensures Symbols(SortByUsd(lines)) == Symbols(lines)
    ensures DistinctSymbols(lines) ==> DistinctSymbols(SortByUsd(lines))
  {
    if lines != [] {
      assert lines == [lines[0]] + lines[1..];
      var rest := SortByUsd(lines[1..]);
      SymbolsOfCons(lines[0], lines[1..]);
      SortKeepsSymbols(lines[1..]);
      InsertAddsSymbol(lines[0], rest);
    }
  }

  /** Sorting lines that are already in report order leaves them as they are. */
  lemma {:induction false} SortingSortedLinesKeepsThem(lines: seq<ReportRow>)
    requires SortedByUsd(lines)
    ensures SortByUsd(lines) == lines
  {
    if lines != [] {
      var tail := lines[1..];
      assert lines == [lines[0]] + tail;
      SortedCons(lines[0], tail);
      SortingSortedLinesKeepsThem(tail);
      assert SortByUsd(lines) == Insert(lines[0], tail);
    }
  }

  // ---------------------------------------------------------------------------
  // The whole script
  // ---------------------------------------------------------------------------

  /** What pandas raises when a column-less frame is sorted by "pnl_USD_est". */
  const NoUsdColumn: string := "KeyError: 'pnl_USD_est'"

  /**
   * The report the script evidently means to write: every symbol that
   * realized something, once, at the script's rate, in report order; an
   * empty report when nothing is realized.
   */
  method NormalizedReport(rows: seq<TradeRow>, fetch: Oracle) returns (report: seq<ReportRow>)
    ensures var realized := Replay(Decoded(rows, Decode)).realized;
      && SortedByUsd(report)
      && Symbols(report) == realized.Keys && DistinctSymbols(report)
      && forall i :: 0 <= i < |report| ==>
           report[i].symbol in realized && report[i] == ScriptLine(report[i].symbol, realized[report[i].symbol], fetch)
  {
    var realized := RealizedQuote(rows);
    var needed := NeededQuotes(realized);
    var rates := QuoteToUsd(needed, fetch);
    var lines := NormalizeRows(realized, rates);
    forall i | 0 <= i < |lines|
      ensures lines[i].symbol in realized && lines[i] == ScriptLine(lines[i].symbol, realized[lines[i].symbol], fetch)
    {
      assert lines[i].symbol in Symbols(lines);
      assert QuoteOf(lines[i].symbol) in needed;
    }
    report := SortByUsd(lines);
    SortKeepsSymbols(lines);
    forall i | 0 <= i < |report|
      ensures report[i].symbol in realized && report[i] == ScriptLine(report[i].symbol, realized[report[i].symbol], fetch)
    {
      assert report[i] in multiset(lines);
      var k :| 0 <= k < |lines| && lines[k] == report[i];
    }
  }

  /**
   * The script as written, from loading to the sorted report. An empty table
   * stops it with "No trades found.". A table in which no symbol realizes
   * anything leaves the list of lines empty; the frame built from it has no
   * "pnl_USD_est" column and the sort raises, so nothing is printed or
   * exported. Otherwise the report is `NormalizedReport`.
   */
  method ComputePnlNormalized(rows: seq<TradeRow>, fetch: Oracle) returns (out: Result<seq<ReportRow>>)
    ensures out.Failure? <==> rows == [] || Replay(Decoded(rows, Decode)).realized == map[]
    ensures out.Failure? ==> out.error == if rows == [] then NoTrades else NoUsdColumn
    ensures out.Success? ==>
      var realized := Replay(Decoded(rows, Decode)).realized;
      && SortedByUsd(out.value)
      && Symbols(out.value) == realized.Keys && DistinctSymbols(out.value)
      && forall i :: 0 <= i < |out.value| ==>
           out.value[i].symbol in realized && out.value[i] == ScriptLine(out.value[i].symbol, realized[out.value[i].symbol], fetch)
  {
    if |rows| == 0 {
      return Failure(NoTrades);
    }
    var report := NormalizedReport(rows, fetch);
    ghost var realized := Replay(Decoded(rows, Decode)).realized;
    if report == [] {
      assert realized.Keys == Symbols(report) == {};
      return Failure(NoUsdColumn);
    }
    assert report[0].symbol in realized;
    out := Success(report);
  }

  /**
   * A table whose only row is a buy is not empty but realizes nothing, so
   * the script as written fails on it while `NormalizedReport` is empty.
   */
  lemma OneBuyRowRealizesNothing()
    ensures Replay(Decoded([TradeRow("BTC/USDT", Some("buy"), Some(1.0), Some(100.0))], Decode)).realized == map[]
  {
    var row := TradeRow("BTC/USDT", Some("buy"), Some(1.0), Some(100.0));
    SameBooksAsDashboard([row]);
    UiApp.OneBuyRowRealizesNothing();
  }
}
