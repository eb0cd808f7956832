/**
 * Quote-to-USD rates. A realized total is in its symbol's quote currency;
 * both the dashboard (`spot_to_usd` in ui/app.py) and the normalisation
 * script convert it with a spot rate. Stable quotes are worth 1.0 without a
 * lookup; any other quote is priced by asking an exchange for the ticker of
 * the pair `Q/USDT` or `Q/USDC`. The exchange is an oracle parameter here.
 */
module Rates {
  import opened Wrappers
  import opened Text

  /** What a ticker request does: it raises, or it answers with or without a last price. */
  datatype Ticker = Raised | Answered(last: Option<real>)

  /** The exchange, as seen by the rate code: a ticker per pair name. */
  type Oracle = string -> Ticker

  /** `t and t.get("last")`: the ticker answered with a last price that is present and non-zero. */
  predicate HasLast(t: Ticker) {
    t.Answered? && t.last.Some? && t.last.value != 0.0
  }

  /** The pair name `f"{q}/{base}"`. */
  function Pair(quote: string, base: string): string {
    quote + "/" + base
  }

  // ---------------------------------------------------------------------------
  // ui/app.py: spot_to_usd
  // ---------------------------------------------------------------------------

  /** The dashboard's `stable_map`: quotes worth one dollar, "USD" included. */
  const UiStableMap: map<string, real> :=
    map["USDT" := 1.0, "USDC" := 1.0, "BUSD" := 1.0, "TUSD" := 1.0, "FDUSD" := 1.0, "USD" := 1.0]

  /** The bases tried, in order, for a quote that is not stable. */
  const UiBases: seq<string> := ["USDT", "USDC"]

  /** The last price of the first pair `quote/base` whose ticker has one; None if none has. */
  function FirstQuoted(quote: string, bases: seq<string>, fetch: Oracle): (r: Option<real>)
    ensures r.Some? ==> r.value != 0.0
    ensures r.Some? ==> exists i :: 0 <= i < |bases| && fetch(Pair(quote, bases[i])).Answered? && fetch(Pair(quote, bases[i])).last == r
  {
    if bases == [] then None
    else
      var t := fetch(Pair(quote, bases[0]));
      if HasLast(t) then Some(t.last.value) else FirstQuoted(quote, bases[1..], fetch)
  }

  /** The rate `spot_to_usd` gives a quote. */
  function UiRate(quote: string, fetch: Oracle): (r: Option<real>)
    ensures r.Some? ==> r.value != 0.0
    ensures quote in UiStableMap ==> r == Some(1.0)
  {
    if quote in UiStableMap then Some(UiStableMap[quote]) else FirstQuoted(quote, UiBases, fetch)
  }

  /**
   * The dashboard tries USDT first and falls back to USDC whether the USDT
   * lookup raised or answered without a last price; a quote has no rate only
   * when neither pair has one.
   */
  lemma UiRateFallsThrough(quote: string, fetch: Oracle)
    requires quote !in UiStableMap
    ensures var usdt, usdc := fetch(Pair(quote, "USDT")), fetch(Pair(quote, "USDC"));
      && (HasLast(usdt) ==> UiRate(quote, fetch) == Some(usdt.last.value))
      && (!HasLast(usdt) && HasLast(usdc) ==> UiRate(quote, fetch) == Some(usdc.last.value))
      && (UiRate(quote, fetch).None? <==> !HasLast(usdt) && !HasLast(usdc))
  {
    var usdc: seq<string> := ["USDC"];
    assert UiBases[0] == "USDT" && UiBases[1..] == usdc;
    assert usdc[0] == "USDC" && usdc[1..] == [];
    var t := fetch(Pair(quote, "USDC"));
    assert FirstQuoted(quote, usdc, fetch) == if HasLast(t) then Some(t.last.value) else FirstQuoted(quote, [], fetch);
  }

  // ---------------------------------------------------------------------------
  // scripts/compute_pnl_normalized.py: the quote_to_usd loop
  // ---------------------------------------------------------------------------

  /** The script's `stable_map` keys; "USD" is handled by a branch of its own. */
  const ScriptStable: set<string> := {"USDT", "USDC", "BUSD", "TUSD", "FDUSD"}

  /** `float(t["last"]) if t and t.get("last") else None`, for a ticker that answered. */
  function LastOrNone(t: Ticker): (r: Option<real>)
    ensures r.Some? <==> HasLast(t)
    ensures r.Some? ==> t.Answered? && t.last == r && r.value != 0.0
  {
    if HasLast(t) then Some(t.last.value) else None
  }

  /** The rate the script gives a quote. */
  function ScriptRate(quote: string, fetch: Oracle): (r: Option<real>)
    ensures r.Some? ==> r.value != 0.0
    ensures r.Some? && quote !in ScriptStable && quote != "USD" ==>
      r == LastOrNone(fetch(Pair(quote, "USDT"))) || r == LastOrNone(fetch(Pair(quote, "USDC")))
  {
    if quote in ScriptStable then Some(1.0)
    else if quote == "USD" then Some(1.0)
    else
      match fetch(Pair(quote, "USDT"))
      case Answered(_) => LastOrNone(fetch(Pair(quote, "USDT")))
      case Raised =>
        match fetch(Pair(quote, "USDC"))
        case Answered(_) => LastOrNone(fetch(Pair(quote, "USDC")))
        case Raised => None
  }

  /**
   * The script asks for USDC only when the USDT request raised: once USDT
   * answered, the rate does not depend on the USDC ticker at all, and an
   * answer without a last price gives no rate.
   */
  lemma ScriptTriesUsdcOnlyAfterRaise(quote: string, fetch: Oracle, other: Oracle)
    requires quote !in ScriptStable && quote != "USD"
    requires fetch(Pair(quote, "USDT")).Answered?
    requires other(Pair(quote, "USDT")) == fetch(Pair(quote, "USDT"))
    ensures ScriptRate(quote, fetch) == ScriptRate(quote, other)
    ensures !HasLast(fetch(Pair(quote, "USDT"))) ==> ScriptRate(quote, fetch).None?
  {
  }

  /** Both programs give every stable quote, and "USD", the rate 1.0 whatever the exchange says. */
  lemma StableQuotesNeedNoLookup(quote: string, fetch: Oracle)
    requires quote in UiStableMap
    ensures UiRate(quote, fetch) == Some(1.0)
    ensures ScriptRate(quote, fetch) == Some(1.0)
  {
  }

  /**
   * The two rate rules disagree on exactly one kind of quote: one whose USDT
   * ticker answers without a last price while its USDC ticker has one. The
   * dashboard then uses the USDC price; the script reports no rate.
   */
  lemma RatesDisagreeOnlyOnMissingLast(quote: string, fetch: Oracle)
    ensures UiRate(quote, fetch) != ScriptRate(quote, fetch)
        <==> && quote !in UiStableMap
             && fetch(Pair(quote, "USDT")).Answered?
             && !HasLast(fetch(Pair(quote, "USDT")))
             && HasLast(fetch(Pair(quote, "USDC")))
  {
    if quote !in UiStableMap {
      UiRateFallsThrough(quote, fetch);
      assert quote !in ScriptStable && quote != "USD";
    }
  }

  // ---------------------------------------------------------------------------
  // Both programs: the USD estimate of a realized total
  // ---------------------------------------------------------------------------

  /** `pnl_q * rate if rate is not None else None`. */
  function UsdEstimate(pnlInQuote: real, rate: Option<real>): (usd: Option<real>)
    ensures usd.None? <==> rate.None?
    ensures rate.Some? ==> usd == Some(pnlInQuote * rate.value)
  {
    if rate.Some? then Some(pnlInQuote * rate.value) else None
  }

  /**
   * With a positive rate the estimate has the sign of the realized total, and
   * it is zero only for a zero total: converting never turns a gain into a loss.
   */
  lemma UsdEstimateKeepsSign(pnlInQuote: real, rate: Option<real>)
    requires rate.Some? && rate.value > 0.0
    ensures var usd := UsdEstimate(pnlInQuote, rate).value;
      && (usd > 0.0 <==> pnlInQuote > 0.0)
      && (usd == 0.0 <==> pnlInQuote == 0.0)
      && (usd < 0.0 <==> pnlInQuote < 0.0)
  {
    var r := rate.value;
    if pnlInQuote > 0.0 {
      assert pnlInQuote * r > 0.0;
    } else if pnlInQuote < 0.0 {
      assert pnlInQuote * r < 0.0;
    }
  }

  /**
   * A line of the P&L summary: the symbol, its realized total in its quote
   * currency, that quote, the quote's USD rate and the USD estimate.
   */
  datatype ReportRow = ReportRow(symbol: string, pnlInQuote: real, quote: string, quoteToUsd: Option<real>, pnlUsdEst: Option<real>)

  /** The line both programs write for a symbol once its quote has been given `rate`. */
  function RowFor(symbol: string, pnlInQuote: real, rate: Option<real>): ReportRow {
    ReportRow(symbol, pnlInQuote, QuoteOf(symbol), rate, UsdEstimate(pnlInQuote, rate))
  }

  /**
   * A line has a USD estimate exactly when its quote has a rate, and then the
   * estimate is the realized total times that rate; a rate of 1.0 leaves the
   * total as it is.
   */
  lemma EstimateExactlyWithRate(symbol: string, pnl: real, rate: Option<real>)
    ensures var line := RowFor(symbol, pnl, rate);
      && line.quote == QuoteOf(symbol) && line.quoteToUsd == rate
      && (line.pnlUsdEst.None? <==> rate.None?)
      && (rate.Some? ==> line.pnlUsdEst == Some(pnl * rate.value))
      && (rate == Some(1.0) ==> line.pnlUsdEst == Some(pnl))
  {
  }

  /** The symbols a list of lines covers. */
  function Symbols(rows: seq<ReportRow>): set<string> {
    set i | 0 <= i < |rows| :: rows[i].symbol
  }

  /** No symbol has two lines. */
  predicate DistinctSymbols(rows: seq<ReportRow>) {
    forall i, j :: 0 <= i < j < |rows| ==> rows[i].symbol != rows[j].symbol
  }

  /** Adding a line adds its symbol, and keeps the symbols distinct when it is a new one. */
  lemma SymbolsOfAppend(rows: seq<ReportRow>, row: ReportRow)
    ensures Symbols(rows + [row]) == Symbols(rows) + {row.symbol}
    ensures DistinctSymbols(rows) && row.symbol !in Symbols(rows) ==> DistinctSymbols(rows + [row])
  {
    var longer := rows + [row];
    assert longer[|rows|] == row;
    assert forall i :: 0 <= i < |rows| ==> longer[i] == rows[i];
    if DistinctSymbols(rows) && row.symbol !in Symbols(rows) {
      forall i, j | 0 <= i < j < |longer| ensures longer[i].symbol != longer[j].symbol {
        if j == |rows| {
          assert rows[i].symbol in Symbols(rows);
        }
      }
    }
  }
}
