/**
 * The computations behind the dashboard's summary in ui/app.py: the
 * per-symbol FIFO pass `fifo_realized` over the trade rows, the rate table
 * `spot_to_usd`, and the summary lines with their USD estimates.
 */
module UiApp {
  import opened Wrappers
  import opened Text
  import opened LotBook
  import opened Rates

  /**
   * How `fifo_realized` reads a row: `str(side or "").lower()`, and
   * `float(amount or 0.0)`, `float(price or 0.0)`.
   */
  function Decode(row: TradeRow): (e: Entry)
    ensures e.symbol == row.symbol
    ensures row.side.None? ==> e.side == ""
    ensures e.amount == 0.0 <==> row.amount.None? || row.amount == Some(0.0)
    ensures row.price.None? ==> e.price == 0.0
  {
    Entry(row.symbol, Lower(row.side.GetOr("")), row.amount.GetOr(0.0), row.price.GetOr(0.0))
  }

  /**
   * `fifo_realized`: one pass over the rows with a lot queue and a realized
   * total per symbol, both kept in maps that start empty.
   */
  method FifoRealized(rows: seq<TradeRow>) returns (realized: map<string, real>)
    ensures realized == Replay(Decoded(rows, Decode)).realized
  {
    var lots: map<string, seq<Lot>> := map[];
    realized := map[];
    for i := 0 to |rows|
      invariant Book(lots, realized) == Replay(Decoded(rows[..i], Decode))
    {
      ReplayOneMoreRow(rows, Decode, i);
      var r := rows[i];
      var sym := r.symbol;
      var side := Lower(r.side.GetOr(""));
      var amt := r.amount.GetOr(0.0);
      var px := r.price.GetOr(0.0);
      if amt == 0.0 {
        continue;
      }
      if side == "buy" {
        lots := lots[sym := QueueOf(lots, sym) + [Lot(amt, px)]];
      } else if side == "sell" {
        lots, realized := Sell(lots, realized, sym, amt, px);
      }
    }
    assert rows[..|rows|] == rows;
  }

  /** A row whose amount is missing or zero is skipped, and so is a row without a side. */
  lemma IncompleteRowsAreSkipped(book: Book, row: TradeRow)
    requires row.amount.None? || row.amount == Some(0.0) || row.side.None?
    ensures Apply(book, Decode(row)) == book
  {
    if row.side.None? {
      assert Decode(row).side == "";
    }
  }

  /** A buy row without a price opens a lot at price 0. */
  lemma MissingPriceBuysAtZero(book: Book, row: TradeRow)
    requires row.side == Some("buy") && row.amount.Some? && row.amount.value != 0.0 && row.price.None?
    ensures QueueOf(Apply(book, Decode(row)).lots, row.symbol) == QueueOf(book.lots, row.symbol) + [Lot(row.amount.value, 0.0)]
  {
    var buy := "buy";
    assert Lower(buy) == buy;
  }

  /** The side is read without regard to case: "BUY" and "Sell" are a buy and a sell. */
  lemma SideIsCaseInsensitive(row: TradeRow, side: string)
    requires row.side == Some(side)
    ensures Decode(row) == Decode(row.(side := Some(Lower(side))))
  {
    LowerIsIdempotent(side);
  }

  /**
   * `spot_to_usd`: for each quote, 1.0 for a stable one, otherwise the last
   * price of the first of `Q/USDT`, `Q/USDC` whose ticker has one, or None.
   */
  method SpotToUsd(quotes: seq<string>, fetch: Oracle) returns (res: map<string, Option<real>>)
    ensures res.Keys == set q | q in quotes
    ensures forall q :: q in res ==> res[q] == UiRate(q, fetch)
  {
    res := map[];
    for i := 0 to |quotes|
      invariant res.Keys == set q | q in quotes[..i]
      invariant forall q :: q in res ==> res[q] == UiRate(q, fetch)
    {
      assert quotes[..i + 1] == quotes[..i] + [quotes[i]];
      var q := quotes[i];
      if q in UiStableMap {
        res := res[q := Some(UiStableMap[q])];
        continue;
      }
      var rate: Option<real> := None;
      var bases := UiBases;
      for j := 0 to |bases|
        invariant rate == None
        invariant FirstQuoted(q, bases[j..], fetch) == FirstQuoted(q, bases, fetch)
      {
        var t := fetch(Pair(q, bases[j]));
        // a ticker that raises is passed over like one without a last price
        if HasLast(t) {
          rate := Some(t.last.value);
          assert rate == FirstQuoted(q, bases, fetch);
          break;
        }
        assert bases[j..][1..] == bases[j + 1..];
      }
      res := res[q := rate];
    }
  }

  /** The line the summary shows for a symbol with realized total `pnl`. */
  function SummaryLine(symbol: string, pnl: real, fetch: Oracle): ReportRow {
    RowFor(symbol, pnl, UiRate(QuoteOf(symbol), fetch))
  }

  /** What pandas raises when a column-less frame is sorted by "pnl_quote". */
  const NoQuoteColumn: string := "KeyError: 'pnl_quote'"

  /**
   * The "Résumé" block as written: the per-symbol lines go into a frame
   * sorted by "pnl_quote". With no realized symbol that frame has no columns
   * and the sort raises, so the page stops there: the `else` branch that
   * would say there is no realized P&L yet is never reached. Otherwise the
   * summary is `SummaryLines`.
   */
  method Summary(realized: map<string, real>, fetch: Oracle) returns (out: Result<seq<ReportRow>>)
    ensures out.Failure? <==> realized == map[]
    ensures out.Failure? ==> out.error == NoQuoteColumn
    ensures out.Success? ==>
      && Symbols(out.value) == realized.Keys && DistinctSymbols(out.value)
      && forall i :: 0 <= i < |out.value| ==> out.value[i] == SummaryLine(out.value[i].symbol, realized[out.value[i].symbol], fetch)
  {
    if realized == map[] {
      return Failure(NoQuoteColumn);
    }
    var lines := SummaryLines(realized, fetch);
    out := Success(lines);
  }

  /**
   * The summary the block evidently means to show: a line per symbol of
   * `fifo_realized`'s result with its quote, the set of quotes, their rates
   * from `spot_to_usd`, and the USD estimate `pnl_quote * quote_to_USD` where
   * the rate is not null; no line at all when nothing is realized.
   */
  method SummaryLines(realized: map<string, real>, fetch: Oracle) returns (lines: seq<ReportRow>)
    ensures Symbols(lines) == realized.Keys && DistinctSymbols(lines)
    ensures forall i :: 0 <= i < |lines| ==> lines[i] == SummaryLine(lines[i].symbol, realized[lines[i].symbol], fetch)
  {
    var quotes;
    lines, quotes := UnpricedLines(realized);
    var rates := SpotToUsd(quotes, fetch);
    lines := PriceLines(lines, realized, quotes, rates, fetch);
  }

  /** The first pass of the summary: a line per symbol with its total and quote, and the quotes met. */
  method UnpricedLines(realized: map<string, real>) returns (lines: seq<ReportRow>, quotes: seq<string>)
    ensures Symbols(lines) == realized.Keys && DistinctSymbols(lines)
    ensures Unpriced(lines, realized, quotes)
  {
    lines := [];
    quotes := [];
    var todo := realized.Keys;
    while todo != {}
      invariant todo <= realized.Keys
      invariant Symbols(lines) == realized.Keys - todo && DistinctSymbols(lines)
      invariant Unpriced(lines, realized, quotes)
      decreases todo
    {
      var sym :| sym in todo;
      var q := QuoteOf(sym);
      var quotes0 := quotes;
      if q !in quotes {
        quotes := quotes + [q];
      }
      var line := ReportRow(sym, realized[sym], q, None, None);
      SymbolsOfAppend(lines, line);
      UnpricedAppend(lines, line, realized, quotes0, quotes);
      lines := lines + [line];
      todo := todo - {sym};
    }
  }

  /** The second pass: each line gets its quote's rate and the USD estimate it gives. */
  method PriceLines(unpriced: seq<ReportRow>, realized: map<string, real>, quotes: seq<string>, rates: map<string, Option<real>>, fetch: Oracle)
    returns (lines: seq<ReportRow>)
    requires Unpriced(unpriced, realized, quotes)
    requires rates.Keys == set q | q in quotes
    requires forall q :: q in rates ==> rates[q] == UiRate(q, fetch)
    ensures |lines| == |unpriced|
    ensures forall i :: 0 <= i < |lines| ==> lines[i].symbol == unpriced[i].symbol
    ensures forall i :: 0 <= i < |lines| ==> lines[i] == SummaryLine(lines[i].symbol, realized[lines[i].symbol], fetch)
  {
    lines := unpriced;
    for i := 0 to |lines|
      invariant |lines| == |unpriced|
      invariant forall k :: 0 <= k < |lines| ==> lines[k].symbol == unpriced[k].symbol && unpriced[k].symbol in realized
      invariant forall k :: 0 <= k < i ==> lines[k] == SummaryLine(unpriced[k].symbol, realized[unpriced[k].symbol], fetch)
      invariant forall k :: i <= k < |lines| ==> lines[k] == unpriced[k]
    {
      var line := lines[i];
      assert line.quote in quotes;
      var rate := rates[line.quote];
      lines := lines[i := line.(quoteToUsd := rate, pnlUsdEst := UsdEstimate(line.pnlInQuote, rate))];
    }
  }

  /** Lines of the first pass: each symbol's total and quote, its quote listed, no rate yet. */
  ghost predicate Unpriced(lines: seq<ReportRow>, realized: map<string, real>, quotes: seq<string>) {
    forall i :: 0 <= i < |lines| ==>
      && lines[i].symbol in realized
      && lines[i] == ReportRow(lines[i].symbol, realized[lines[i].symbol], QuoteOf(lines[i].symbol), None, None)
      && lines[i].quote in quotes
  }

  lemma UnpricedAppend(lines: seq<ReportRow>, line: ReportRow, realized: map<string, real>, quotes: seq<string>, more: seq<string>)
    requires Unpriced(lines, realized, quotes)
    requires line.symbol in realized && line == ReportRow(line.symbol, realized[line.symbol], QuoteOf(line.symbol), None, None)
    requires forall q :: q in quotes ==> q in more
    requires line.quote in more
    ensures Unpriced(lines + [line], realized, more)
  {
    var longer := lines + [line];
    assert forall i :: 0 <= i < |lines| ==> longer[i] == lines[i];
  }

  /** A symbol quoted in a stable currency is estimated at its realized total, without any lookup. */
  lemma StableQuoteIsItsOwnEstimate(symbol: string, pnl: real, fetch: Oracle)
    requires QuoteOf(symbol) in UiStableMap
    ensures SummaryLine(symbol, pnl, fetch).pnlUsdEst == Some(pnl)
  {
    StableQuotesNeedNoLookup(QuoteOf(symbol), fetch);
    EstimateExactlyWithRate(symbol, pnl, Some(1.0));
  }

  /**
   * A period whose only row is a buy realizes nothing, so the summary as
   * written fails on it while `SummaryLines` gives an empty summary.
   */
  lemma OneBuyRowRealizesNothing()
    ensures Replay(Decoded([TradeRow("BTC/USDT", Some("buy"), Some(1.0), Some(100.0))], Decode)).realized == map[]
  {
    var row := TradeRow("BTC/USDT", Some("buy"), Some(1.0), Some(100.0));
    var buy := "buy";
    assert Lower(buy) == buy;
    assert [row][..0] == [];
    assert Decoded([row], Decode) == [Decode(row)];
  }

  /** The example's three rows, decoded: the upper-case side reads as a buy. */
  lemma ExampleRowsDecode()
    ensures Decoded(ExampleRows(), Decode) == ExampleEntries()
  {
    var rows := ExampleRows();
    var buy, upper, sold := "buy", "BUY", "sell";
    assert Lower(buy) == buy && Lower(sold) == sold;
    assert Lower(upper) == buy;
    assert rows[..2][..1] == [rows[0]] && [rows[0]][..0] == [];
    var entries := ExampleEntries();
    assert Decoded([rows[0]], Decode) == [entries[0]];
    assert Decoded(rows[..2], Decode) == entries[..2];
  }

  function ExampleRows(): seq<TradeRow> {
    [ TradeRow("ETH/USDT", Some("buy"), Some(2.0), Some(100.0)),
      TradeRow("ETH/USDT", Some("BUY"), Some(1.0), Some(110.0)),
      TradeRow("ETH/USDT", Some("sell"), Some(2.0), Some(120.0)) ]
  }

  function ExampleEntries(): seq<Entry> {
    [ Entry("ETH/USDT", "buy", 2.0, 100.0),
      Entry("ETH/USDT", "buy", 1.0, 110.0),
      Entry("ETH/USDT", "sell", 2.0, 120.0) ]
  }

  /** The two buys queue two lots; the sell of two units uses the first lot whole: 2 * (120 - 100). */
  lemma ExampleEntriesReplay()
    ensures Replay(ExampleEntries()).realized == map["ETH/USDT" := 40.0]
  {
    var entries := ExampleEntries();
    var e1, e2, e3 := entries[0], entries[1], entries[2];
    assert entries[..2] == [e1, e2] && [e1, e2][..1] == [e1] && [e1][..0] == [];
    var empty := Book(map[], map[]);
    assert Replay([e1]) == Apply(empty, e1);
    assert Apply(empty, e1) == empty.(lots := empty.lots[e1.symbol := QueueOf(empty.lots, e1.symbol) + [Lot(e1.amount, e1.price)]]);
    assert QueueOf(empty.lots, e1.symbol) + [Lot(e1.amount, e1.price)] == [Lot(2.0, 100.0)];
    var b1 := Book(map["ETH/USDT" := [Lot(2.0, 100.0)]], map[]);
    assert Apply(empty, e1) == b1;
    assert Apply(b1, e2) == b1.(lots := b1.lots[e2.symbol := QueueOf(b1.lots, e2.symbol) + [Lot(e2.amount, e2.price)]]);
    assert QueueOf(b1.lots, e2.symbol) + [Lot(e2.amount, e2.price)] == [Lot(2.0, 100.0), Lot(1.0, 110.0)];
    var b2 := Book(map["ETH/USDT" := [Lot(2.0, 100.0), Lot(1.0, 110.0)]], map[]);
    assert Replay([e1, e2]) == Apply(b1, e2) == b2;
    var q := [Lot(2.0, 100.0), Lot(1.0, 110.0)];
    assert MatchLots(q[1..], 0.0, 120.0) == Fill(q[1..], 0.0, 0.0);
    assert MatchLots(q, 2.0, 120.0).gain == 40.0;
    assert Replay(entries) == Apply(b2, e3);
  }

  /**
   * A worked example on rows: two buys of ETH/USDT at 100 and 110, the second
   * with an upper-case side, then a sell of two units at 120, realize 40.
   */
  lemma TwoLotsExample()
    ensures Replay(Decoded(ExampleRows(), Decode)).realized == map["ETH/USDT" := 40.0]
  {
    ExampleRowsDecode();
    ExampleEntriesReplay();
  }
}
