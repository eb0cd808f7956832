/**
 * The per-symbol FIFO engine with a dust threshold, as written twice in the
 * source: in `fifo_realized` of ui/app.py and in the module-level loop of
 * scripts/compute_pnl_normalized.py. Every symbol has its own queue of open
 * lots and its own realized total in its quote currency. Amounts are floats
 * in the source and `real` here; quantities at or below `Dust` count as zero.
 */
module LotBook {
  import opened Wrappers
  import Pnl

  /** The source's 1e-12 threshold below which a remaining amount is treated as nothing. */
  const Dust: real := 0.000000000001

  /** An open lot: the base amount still held and the price paid, in the quote currency. */
  datatype Lot = Lot(amount: real, price: real)

  /** A row of the `trades` table as read: side, amount and price may be missing. */
  datatype TradeRow = TradeRow(symbol: string, side: Option<string>, amount: Option<real>, price: Option<real>)

  /** A trade row once decoded: symbol, lowered side, amount and price. */
  datatype Entry = Entry(symbol: string, side: string, amount: real, price: real)

  /** What one sell does to a queue: the lots left, the P&L it realizes, the base amount it used. */
  datatype Fill = Fill(queue: seq<Lot>, gain: real, used: real)

  /** The two accumulators of the source: symbol to lot queue, symbol to realized total. */
  datatype Book = Book(lots: map<string, seq<Lot>>, realized: map<string, real>)

  /** The queue of a symbol; a symbol never seen has an empty one (the `defaultdict` default). */
  function QueueOf(lots: map<string, seq<Lot>>, symbol: string): seq<Lot> {
    if symbol in lots then lots[symbol] else []
  }

  /** The realized total of a symbol, 0.0 when it has none yet (the `defaultdict(float)` default). */
  function RealizedOf(realized: map<string, real>, symbol: string): real {
    if symbol in realized then realized[symbol] else 0.0
  }

  /**
   * The base amount still open in a queue. `Pnl.TotalQuantity` is the same
   * sum over the library's own lot type.
   */
  function TotalAmount(queue: seq<Lot>): real {
    if queue == [] then 0.0 else queue[0].amount + TotalAmount(queue[1..])
  }

  /**
   * The `while remain > 1e-12 and lots[sym]` loop: take the front lot, use
   * `min(remain, lot_amt)` of it, pop it when what is left of it is dust and
   * shrink it in place otherwise. Each round pops a lot or uses up the sell.
   */
  function MatchLots(queue: seq<Lot>, remain: real, price: real): (f: Fill)
    ensures |f.queue| <= |queue|
    ensures remain <= Dust ==> f == Fill(queue, 0.0, 0.0)
    decreases |queue| + (if remain > Dust then 1 else 0)
  {
    if remain <= Dust || queue == [] then Fill(queue, 0.0, 0.0)
    else
      var lot := queue[0];
      var used := Pnl.Min(remain, lot.amount);
      var left := lot.amount - used;
      var next := if left <= Dust then queue[1..] else queue[0 := Lot(left, lot.price)];
      var rest := MatchLots(next, remain - used, price);
      Fill(rest.queue, used * (price - lot.price) + rest.gain, used + rest.used)
  }

  /** Does a sell of `amount` against `queue` enter the matching loop at all? */
  predicate Matches(queue: seq<Lot>, amount: real) {
    amount > Dust && queue != []
  }

  /**
   * One row of the outer loop: skip a zero amount, queue a buy, match a sell,
   * ignore anything else. Only a sell realizes anything, and a row leaves
   * every other symbol alone.
   */
  function Apply(book: Book, e: Entry): (r: Book)
    ensures e.side != "sell" ==> r.realized == book.realized
    ensures forall s :: s != e.symbol ==> QueueOf(r.lots, s) == QueueOf(book.lots, s)
    ensures forall s :: s != e.symbol ==> Lookup(r.realized, s) == Lookup(book.realized, s)
  {
    if e.amount == 0.0 then book
    else if e.side == "buy" then
      book.(lots := book.lots[e.symbol := QueueOf(book.lots, e.symbol) + [Lot(e.amount, e.price)]])
    else if e.side == "sell" && Matches(QueueOf(book.lots, e.symbol), e.amount) then
      var fill := MatchLots(QueueOf(book.lots, e.symbol), e.amount, e.price);
      Book(book.lots[e.symbol := fill.queue],
           book.realized[e.symbol := RealizedOf(book.realized, e.symbol) + fill.gain])
    else book
  }

  /** The rows of the `trades` table as one program reads them, in order. */
  function Decoded(rows: seq<TradeRow>, decode: TradeRow -> Entry): (entries: seq<Entry>)
    ensures |entries| == |rows|
    ensures forall i :: 0 <= i < |rows| ==> entries[i] == decode(rows[i])
  {
    if rows == [] then [] else Decoded(rows[..|rows| - 1], decode) + [decode(rows[|rows| - 1])]
  }

  /** The two accumulators after all entries, in order, from empty ones. */
  function Replay(entries: seq<Entry>): Book {
    if entries == [] then Book(map[], map[])
    else Apply(Replay(entries[..|entries| - 1]), entries[|entries| - 1])
  }

  /** Replaying one more row applies that row to the books so far. */
  lemma ReplayOneMoreRow(rows: seq<TradeRow>, decode: TradeRow -> Entry, i: nat)
    requires i < |rows|
    ensures Replay(Decoded(rows[..i + 1], decode)) == Apply(Replay(Decoded(rows[..i], decode)), decode(rows[i]))
  {
    assert rows[..i + 1][..i] == rows[..i];
    var before := Decoded(rows[..i], decode);
    assert (before + [decode(rows[i])])[..|before|] == before;
  }

  /** One round of the matching loop, as `MatchLots` takes it: `used` of the front lot, leaving `next`. */
  lemma MatchLotsUnfolds(queue: seq<Lot>, remain: real, price: real, used: real, next: seq<Lot>)
    requires remain > Dust && queue != []
    requires used == Pnl.Min(remain, queue[0].amount)
    requires next == if queue[0].amount - used <= Dust then queue[1..] else queue[0 := Lot(queue[0].amount - used, queue[0].price)]
    ensures MatchLots(queue, remain, price).queue == MatchLots(next, remain - used, price).queue
    ensures MatchLots(queue, remain, price).gain == used * (price - queue[0].price) + MatchLots(next, remain - used, price).gain
    ensures MatchLots(queue, remain, price).used == used + MatchLots(next, remain - used, price).used
  {
  }

  /**
   * The `while` loop of a sell on one symbol's queue: shrink or pop the front
   * lot until the sell is used up or the queue is empty, summing the P&L of
   * each match.
   */
  method MatchQueue(queue: seq<Lot>, amount: real, price: real) returns (left: seq<Lot>, gain: real)
    ensures left == MatchLots(queue, amount, price).queue
    ensures gain == MatchLots(queue, amount, price).gain
  {
    left, gain := queue, 0.0;
    var remain := amount;
    while remain > Dust && left != []
      invariant StillToMatch(MatchLots(queue, amount, price), left, remain, price, gain)
      decreases |left| + (if remain > Dust then 1 else 0)
    {
      ghost var (left0, remain0, gain0) := (left, remain, gain);
      var lotAmt, lotPx := left[0].amount, left[0].price;
      var used := Pnl.Min(remain, lotAmt);
      gain := gain + used * (price - lotPx);
      lotAmt := lotAmt - used;
      remain := remain - used;
      if lotAmt <= Dust {
        left := left[1..];
      } else {
        left := left[0 := Lot(lotAmt, lotPx)];
      }
      MatchOneRound(MatchLots(queue, amount, price), left0, remain0, price, gain0, used, left);
    }
  }

  /**
   * The loop invariant of `MatchQueue`: matching what is left of the sell
   * against what is left of the queue, on top of the P&L taken so far, ends
   * where matching the whole sell against the whole queue ends.
   */
  ghost predicate StillToMatch(whole: Fill, left: seq<Lot>, remain: real, price: real, gain: real) {
    var rest := MatchLots(left, remain, price);
    whole.queue == rest.queue && whole.gain == gain + rest.gain
  }

  /** One round of the matching loop keeps `StillToMatch`. */
  lemma MatchOneRound(whole: Fill, left: seq<Lot>, remain: real, price: real, gain: real, used: real, next: seq<Lot>)
    requires StillToMatch(whole, left, remain, price, gain)
    requires remain > Dust && left != []
    requires used == Pnl.Min(remain, left[0].amount)
    requires next == if left[0].amount - used <= Dust then left[1..] else left[0 := Lot(left[0].amount - used, left[0].price)]
    ensures StillToMatch(whole, next, remain - used, price, gain + used * (price - left[0].price))
  {
    MatchLotsUnfolds(left, remain, price, used, next);
  }

  /**
   * The body of the `elif side == "sell"` branch: match the sell against the
   * symbol's queue and add what it realizes to the symbol's total. The
   * symbol's total is touched only when the loop runs at least once.
   */
  method Sell(lots: map<string, seq<Lot>>, realized: map<string, real>, symbol: string, amount: real, price: real)
    returns (lots': map<string, seq<Lot>>, realized': map<string, real>)
    ensures Book(lots', realized') == Apply(Book(lots, realized), Entry(symbol, "sell", amount, price))
  {
    var queue := QueueOf(lots, symbol);
    if Matches(queue, amount) {
      var left, gain := MatchQueue(queue, amount, price);
      lots' := lots[symbol := left];
      realized' := realized[symbol := RealizedOf(realized, symbol) + gain];
    } else {
      lots', realized' := lots, realized;
    }
  }

  // ---------------------------------------------------------------------------
  // Matching one sell against one queue
  // ---------------------------------------------------------------------------

  /**
   * Matching is first-in first-out: the lots left are the queue with a prefix
   * of consumed lots removed and, possibly, the next lot shrunk in place at
   * its own price.
   */
  lemma {:induction false} MatchLotsTouchesOnlyFront(queue: seq<Lot>, remain: real, price: real)
    ensures var left := MatchLots(queue, remain, price).queue;
      var k := |queue| - |left|;
      && 0 <= k <= |queue|
      && (left != [] ==>
            && left[1..] == queue[k + 1..]
            && left[0].price == queue[k].price
            && left[0].amount <= queue[k].amount)
  {
    if remain > Dust && queue != [] {
      var lot, tail := queue[0], queue[1..];
      var used := Pnl.Min(remain, lot.amount);
      if lot.amount - used <= Dust {
        var rest := remain - used;
        MatchLotsTouchesOnlyFront(tail, rest, price);
        var left := MatchLots(tail, rest, price).queue;
        assert MatchLots(queue, remain, price).queue == left;
        var k := |queue| - |left|;
        if left != [] {
          assert tail[k - 1 + 1..] == queue[k + 1..];
        }
      } else {
        var next := queue[0 := Lot(lot.amount - used, lot.price)];
        assert MatchLots(next, remain - used, price).queue == next;
      }
    }
  }

  /** The loop ends only when the sell is used up to dust or the queue is empty: an oversell is dropped. */
  lemma {:induction false} MatchLotsStopsWhenDone(queue: seq<Lot>, remain: real, price: real)
    ensures var f := MatchLots(queue, remain, price);
      f.queue == [] || remain - f.used <= Dust
  {
    if remain > Dust && queue != [] {
      var lot, tail := queue[0], queue[1..];
      var used := Pnl.Min(remain, lot.amount);
      if lot.amount - used <= Dust {
        var rest := remain - used;
        MatchLotsStopsWhenDone(tail, rest, price);
        var f := MatchLots(tail, rest, price);
        assert MatchLots(queue, remain, price) == Fill(f.queue, used * (price - lot.price) + f.gain, used + f.used);
      } else {
        var next := queue[0 := Lot(lot.amount - used, lot.price)];
        assert MatchLots(next, remain - used, price) == Fill(next, 0.0, 0.0);
      }
    }
  }

  /** A sell never uses more than its own amount. */
  lemma {:induction false} MatchLotsUsesAtMostTheSell(queue: seq<Lot>, remain: real, price: real)
    requires remain >= 0.0
    ensures MatchLots(queue, remain, price).used <= remain
  {
    if remain > Dust && queue != [] {
      var lot, tail := queue[0], queue[1..];
      var used := Pnl.Min(remain, lot.amount);
      if lot.amount - used <= Dust {
        var rest := remain - used;
        MatchLotsUsesAtMostTheSell(tail, rest, price);
        var f := MatchLots(tail, rest, price);
        assert MatchLots(queue, remain, price).used == used + f.used;
      } else {
        var next := queue[0 := Lot(lot.amount - used, lot.price)];
        assert MatchLots(next, remain - used, price) == Fill(next, 0.0, 0.0);
      }
    }
  }

  /**
   * What leaves `queue` in `f` is what the sell used plus at most one
   * remainder of at most `Dust`, and no lot is added.
   */
  predicate ConservedUpToDust(queue: seq<Lot>, f: Fill) {
    && |f.queue| <= |queue|
    && 0.0 <= TotalAmount(queue) - f.used - TotalAmount(f.queue)
    && TotalAmount(queue) - f.used - TotalAmount(f.queue) <= Dust
  }

  /**
   * Base amount is conserved up to dust: what leaves the queue is what the
   * sell used plus at most one remainder of at most `Dust`, dropped with the
   * lot popped in the round that ends the sell.
   */
  lemma {:induction false} MatchLotsConservesUpToDust(queue: seq<Lot>, remain: real, price: real)
    ensures ConservedUpToDust(queue, MatchLots(queue, remain, price))
    decreases |queue| + (if remain > Dust then 1 else 0)
  {
    if remain > Dust && queue != [] {
      var lot := queue[0];
      var used := Pnl.Min(remain, lot.amount);
      var next := if lot.amount - used <= Dust then queue[1..] else queue[0 := Lot(lot.amount - used, lot.price)];
      if used == lot.amount {
        MatchLotsConservesUpToDust(next, remain - used, price);
        WholeLotConservesStep(queue, remain, price, used, next);
      } else {
        InsideFrontLotConservesStep(queue, remain, price, used, next);
      }
    }
  }

  /** The inductive step of `MatchLotsConservesUpToDust` when the round uses up the front lot. */
  lemma WholeLotConservesStep(queue: seq<Lot>, remain: real, price: real, used: real, next: seq<Lot>)
    requires remain > Dust && queue != []
    requires used == Pnl.Min(remain, queue[0].amount) && used == queue[0].amount && next == queue[1..]
    requires ConservedUpToDust(next, MatchLots(next, remain - used, price))
    ensures ConservedUpToDust(queue, MatchLots(queue, remain, price))
  {
    MatchLotsUnfolds(queue, remain, price, used, next);
    assert TotalAmount(queue) == used + TotalAmount(next);
  }

  /** The last round of `MatchLotsConservesUpToDust`, when the sell is used up inside the front lot. */
  lemma InsideFrontLotConservesStep(queue: seq<Lot>, remain: real, price: real, used: real, next: seq<Lot>)
    requires remain > Dust && queue != []
    requires used == Pnl.Min(remain, queue[0].amount) && used != queue[0].amount
    requires next == if queue[0].amount - used <= Dust then queue[1..] else queue[0 := Lot(queue[0].amount - used, queue[0].price)]
    ensures ConservedUpToDust(queue, MatchLots(queue, remain, price))
  {
    MatchLotsUnfolds(queue, remain, price, used, next);
    assert used == remain;
    assert MatchLots(next, remain - used, price) == Fill(next, 0.0, 0.0);
    assert TotalAmount(queue) == queue[0].amount + TotalAmount(queue[1..]);
    if queue[0].amount - used > Dust {
      assert next[1..] == queue[1..];
      assert TotalAmount(next) == queue[0].amount - used + TotalAmount(queue[1..]);
    }
  }

  /** Every lot of the queue was bought at `cost`. */
  predicate AllAtPrice(queue: seq<Lot>, cost: real) {
    queue == [] || (queue[0].price == cost && AllAtPrice(queue[1..], cost))
  }

  /** Against lots all bought at one price, a sell realizes (sell price - buy price) per unit used. */
  lemma {:induction false} MatchLotsAtOnePrice(queue: seq<Lot>, remain: real, price: real, cost: real)
    requires AllAtPrice(queue, cost)
    ensures GainsAtOnePrice(queue, remain, price, cost)
    decreases |queue| + (if remain > Dust then 1 else 0)
  {
    if remain > Dust && queue != [] {
      var lot := queue[0];
      var used := Pnl.Min(remain, lot.amount);
      var next := if lot.amount - used <= Dust then queue[1..] else queue[0 := Lot(lot.amount - used, lot.price)];
      if lot.amount - used > Dust {
        assert next[1..] == queue[1..];
      }
      MatchLotsAtOnePrice(next, remain - used, price, cost);
      AtOnePriceStep(queue, remain, price, cost, used, next);
    } else {
      assert MatchLots(queue, remain, price) == Fill(queue, 0.0, 0.0);
    }
  }

  /** The statement of `MatchLotsAtOnePrice`: the sell realizes `price - cost` per unit it uses. */
  predicate GainsAtOnePrice(queue: seq<Lot>, remain: real, price: real, cost: real) {
    var f := MatchLots(queue, remain, price);
    f.gain == f.used * (price - cost)
  }

  /** The inductive step of `MatchLotsAtOnePrice`, for one round of the matching loop. */
  lemma AtOnePriceStep(queue: seq<Lot>, remain: real, price: real, cost: real, used: real, next: seq<Lot>)
    requires remain > Dust && queue != [] && queue[0].price == cost
    requires used == Pnl.Min(remain, queue[0].amount)
    requires next == if queue[0].amount - used <= Dust then queue[1..] else queue[0 := Lot(queue[0].amount - used, queue[0].price)]
    requires GainsAtOnePrice(next, remain - used, price, cost)
    ensures GainsAtOnePrice(queue, remain, price, cost)
  {
    MatchLotsUnfolds(queue, remain, price, used, next);
    PerUnitGainsAdd(MatchLots(queue, remain, price), MatchLots(next, remain - used, price), used, price - queue[0].price, price - cost);
  }

  /**
   * The arithmetic of one round at one price: matching `used` units at a
   * margin of `margin` and then the rest, each at `margin` per unit, makes
   * `margin` per unit overall.
   */
  lemma PerUnitGainsAdd(whole: Fill, rest: Fill, used: real, lotMargin: real, margin: real)
    requires whole.gain == used * lotMargin + rest.gain && whole.used == used + rest.used
    requires rest.gain == rest.used * margin && lotMargin == margin
    ensures whole.gain == whole.used * margin
  {
  }

  /**
   * Every lot of the queue holds a positive amount. `Pnl.AllPositive` states
   * the same of the library's lots with a quantifier; here it is recursive,
   * like `MatchLots`, so that the inductions on the queue unfold it one lot
   * at a time.
   */
  predicate PositiveLots(queue: seq<Lot>) {
    queue == [] || (queue[0].amount > 0.0 && PositiveLots(queue[1..]))
  }

  /**
   * What the first `x` units of the queue cost, oldest lot first: whole lots
   * at their own prices, then part of the next lot.
   */
  function FifoCost(queue: seq<Lot>, x: real): real {
    if queue == [] then 0.0
    else if x <= queue[0].amount then x * queue[0].price
    else queue[0].amount * queue[0].price + FifoCost(queue[1..], x - queue[0].amount)
  }

  /**
   * Whatever the lots' prices, a sell realizes its price times the amount it
   * used minus the first-in first-out cost of that amount.
   */
  lemma {:induction false} MatchLotsRealizesFifoCost(queue: seq<Lot>, remain: real, price: real)
    requires PositiveLots(queue)
    ensures RealizesFifoCost(queue, remain, price)
    decreases |queue| + (if remain > Dust then 1 else 0)
  {
    if remain <= Dust || queue == [] {
      assert MatchLots(queue, remain, price) == Fill(queue, 0.0, 0.0);
    } else {
      var lot := queue[0];
      var used := Pnl.Min(remain, lot.amount);
      var next := if lot.amount - used <= Dust then queue[1..] else queue[0 := Lot(lot.amount - used, lot.price)];
      if used == lot.amount {
        MatchLotsRealizesFifoCost(next, remain - used, price);
        MatchLotsUsesNoNegativeAmount(next, remain - used, price);
        WholeLotStep(queue, remain, price, used, next);
      } else {
        InsideFrontLotStep(queue, remain, price, used, next);
      }
    }
  }

  /** The inductive step of `MatchLotsRealizesFifoCost` when the round uses up the front lot. */
  lemma WholeLotStep(queue: seq<Lot>, remain: real, price: real, used: real, next: seq<Lot>)
    requires remain > Dust && queue != [] && PositiveLots(queue)
    requires used == Pnl.Min(remain, queue[0].amount) && used == queue[0].amount && next == queue[1..]
    requires RealizesFifoCost(next, remain - used, price) && MatchLots(next, remain - used, price).used >= 0.0
    ensures RealizesFifoCost(queue, remain, price)
  {
    MatchLotsUnfolds(queue, remain, price, used, next);
    FifoCostOfWholeLot(queue, price, used, MatchLots(queue, remain, price), MatchLots(next, remain - used, price));
  }

  /** The last round of `MatchLotsRealizesFifoCost`, when the sell is used up inside the front lot. */
  lemma InsideFrontLotStep(queue: seq<Lot>, remain: real, price: real, used: real, next: seq<Lot>)
    requires remain > Dust && queue != []
    requires used == Pnl.Min(remain, queue[0].amount) && used != queue[0].amount
    requires next == if queue[0].amount - used <= Dust then queue[1..] else queue[0 := Lot(queue[0].amount - used, queue[0].price)]
    ensures RealizesFifoCost(queue, remain, price)
  {
    MatchLotsUnfolds(queue, remain, price, used, next);
    assert used == remain;
    assert MatchLots(next, remain - used, price) == Fill(next, 0.0, 0.0);
    FifoCostInsideFrontLot(queue, price, MatchLots(queue, remain, price), used);
  }

  /** The statement of `MatchLotsRealizesFifoCost`. */
  predicate RealizesFifoCost(queue: seq<Lot>, remain: real, price: real) {
    var f := MatchLots(queue, remain, price);
    f.gain == price * f.used - FifoCost(queue, f.used)
  }

  /** The step where the front lot is used whole and the rest of the sell goes on against the lots behind it. */
  lemma FifoCostOfWholeLot(queue: seq<Lot>, price: real, used: real, whole: Fill, rest: Fill)
    requires queue != [] && PositiveLots(queue) && rest.used >= 0.0 && used == queue[0].amount
    requires whole.gain == used * (price - queue[0].price) + rest.gain
    requires whole.used == used + rest.used
    requires rest.gain == price * rest.used - FifoCost(queue[1..], rest.used)
    ensures whole.gain == price * whole.used - FifoCost(queue, whole.used)
  {
    var a, c := queue[0].amount, queue[0].price;
    if rest.used == 0.0 {
      FifoCostOfNothing(queue[1..]);
      assert FifoCost(queue, whole.used) == a * c;
    } else {
      assert FifoCost(queue, whole.used) == a * c + FifoCost(queue[1..], rest.used);
    }
  }

  /** The step where the sell ends inside the front lot. */
  lemma FifoCostInsideFrontLot(queue: seq<Lot>, price: real, whole: Fill, used: real)
    requires queue != [] && used <= queue[0].amount
    requires whole.gain == used * (price - queue[0].price) && whole.used == used
    ensures whole.gain == price * whole.used - FifoCost(queue, whole.used)
  {
    assert FifoCost(queue, used) == used * queue[0].price;
  }

  /** Nothing costs nothing. */
  lemma FifoCostOfNothing(queue: seq<Lot>)
    requires PositiveLots(queue)
    ensures FifoCost(queue, 0.0) == 0.0
  {
  }

  /** Against positive lots a sell never uses a negative amount. */
  lemma {:induction false} MatchLotsUsesNoNegativeAmount(queue: seq<Lot>, remain: real, price: real)
    requires PositiveLots(queue)
    ensures MatchLots(queue, remain, price).used >= 0.0
    decreases |queue| + (if remain > Dust then 1 else 0)
  {
    if remain > Dust && queue != [] {
      var lot := queue[0];
      var used := Pnl.Min(remain, lot.amount);
      var next := if lot.amount - used <= Dust then queue[1..] else queue[0 := Lot(lot.amount - used, lot.price)];
      if lot.amount - used > Dust {
        assert next[1..] == queue[1..];
      }
      MatchLotsUsesNoNegativeAmount(next, remain - used, price);
      MatchLotsUnfolds(queue, remain, price, used, next);
    }
  }

  /** Matching against positive lots leaves positive lots: a shrunk front lot keeps more than `Dust`. */
  lemma {:induction false} MatchLotsKeepsPositive(queue: seq<Lot>, remain: real, price: real)
    requires PositiveLots(queue)
    ensures PositiveLots(MatchLots(queue, remain, price).queue)
    decreases |queue| + (if remain > Dust then 1 else 0)
  {
    if remain > Dust && queue != [] {
      var lot := queue[0];
      var used := Pnl.Min(remain, lot.amount);
      var next := if lot.amount - used <= Dust then queue[1..] else queue[0 := Lot(lot.amount - used, lot.price)];
      if lot.amount - used > Dust {
        assert next[1..] == queue[1..];
      }
      MatchLotsKeepsPositive(next, remain - used, price);
      MatchLotsUnfolds(queue, remain, price, used, next);
    }
  }

  /** Queuing a positive lot at the back of positive lots keeps them positive. */
  lemma {:induction false} PositiveLotsAppend(queue: seq<Lot>, lot: Lot)
    requires PositiveLots(queue) && lot.amount > 0.0
    ensures PositiveLots(queue + [lot])
    decreases |queue|
  {
    if queue == [] {
      assert ([] + [lot])[1..] == [];
    } else {
      assert (queue + [lot])[1..] == queue[1..] + [lot];
      PositiveLotsAppend(queue[1..], lot);
    }
  }

  // ---------------------------------------------------------------------------
  // The row loop
  // ---------------------------------------------------------------------------

  /** Every symbol's queue holds only positive lots. */
  predicate AllQueuesPositive(lots: map<string, seq<Lot>>) {
    forall s :: s in lots ==> PositiveLots(lots[s])
  }

  /** No buy row carries a negative amount. */
  predicate BuysAreNotNegative(entries: seq<Entry>) {
    forall i :: 0 <= i < |entries| && entries[i].side == "buy" ==> entries[i].amount >= 0.0
  }

  /** One row keeps every queue positive, as long as it is not a buy of a negative amount. */
  lemma ApplyKeepsQueuesPositive(book: Book, e: Entry)
    requires AllQueuesPositive(book.lots)
    requires e.side == "buy" ==> e.amount >= 0.0
    ensures AllQueuesPositive(Apply(book, e).lots)
  {
    var queue := QueueOf(book.lots, e.symbol);
    assert PositiveLots(queue);
    if e.amount == 0.0 {
    } else if e.side == "buy" {
      PositiveLotsAppend(queue, Lot(e.amount, e.price));
    } else if e.side == "sell" && Matches(queue, e.amount) {
      MatchLotsKeepsPositive(queue, e.amount, e.price);
    }
  }

  /**
   * The invariant of the row loop: however many rows were replayed, every
   * open lot of every symbol holds a positive amount, provided no buy row
   * has a negative amount.
   */
  lemma {:induction false} ReplayKeepsQueuesPositive(entries: seq<Entry>)
    requires BuysAreNotNegative(entries)
    ensures AllQueuesPositive(Replay(entries).lots)
  {
    if entries != [] {
      var init := entries[..|entries| - 1];
      assert BuysAreNotNegative(init) by {
        forall i | 0 <= i < |init| && init[i].side == "buy"
          ensures init[i].amount >= 0.0
        {
          assert init[i] == entries[i];
        }
      }
      ReplayKeepsQueuesPositive(init);
      ApplyKeepsQueuesPositive(Replay(init), entries[|entries| - 1]);
    }
  }

  /**
   * In every state the row loop reaches, the next sell on any symbol
   * realizes its price times the amount it uses minus the first-in
   * first-out cost of that amount.
   */
  lemma ReplayedSellRealizesFifoCost(entries: seq<Entry>, symbol: string, remain: real, price: real)
    requires BuysAreNotNegative(entries)
    ensures RealizesFifoCost(QueueOf(Replay(entries).lots, symbol), remain, price)
  {
    ReplayKeepsQueuesPositive(entries);
    MatchLotsRealizesFifoCost(QueueOf(Replay(entries).lots, symbol), remain, price);
  }

  /** A zero amount, or a side that is neither "buy" nor "sell", leaves both accumulators alone. */
  lemma SkippedRowsChangeNothing(book: Book, e: Entry)
    requires e.amount == 0.0 || (e.side != "buy" && e.side != "sell")
    ensures Apply(book, e) == book
  {
  }

  /** A buy queues one lot at the back of its own symbol's queue and realizes nothing. */
  lemma BuyQueuesAtTheBack(book: Book, e: Entry)
    requires e.amount != 0.0 && e.side == "buy"
    ensures QueueOf(Apply(book, e).lots, e.symbol) == QueueOf(book.lots, e.symbol) + [Lot(e.amount, e.price)]
    ensures Apply(book, e).realized == book.realized
  {
  }

  /** The realized total of a symbol, or None when the returned map has no entry for it. */
  function Lookup(realized: map<string, real>, symbol: string): Option<real> {
    if symbol in realized then Some(realized[symbol]) else None
  }

  /** The entries of one symbol, in their order. */
  function Only(entries: seq<Entry>, symbol: string): seq<Entry> {
    if entries == [] then []
    else
      var init := Only(entries[..|entries| - 1], symbol);
      if entries[|entries| - 1].symbol == symbol then init + [entries[|entries| - 1]] else init
  }

  /** A row touches only the queue and the realized total of its own symbol. */
  lemma ApplyIsLocal(book: Book, other: Book, e: Entry, symbol: string)
    requires QueueOf(book.lots, symbol) == QueueOf(other.lots, symbol)
    requires Lookup(book.realized, symbol) == Lookup(other.realized, symbol)
    ensures QueueOf(Apply(book, e).lots, symbol) == QueueOf(Apply(other, e).lots, symbol)
    ensures Lookup(Apply(book, e).realized, symbol) == Lookup(Apply(other, e).realized, symbol)
    ensures e.symbol != symbol ==> QueueOf(Apply(book, e).lots, symbol) == QueueOf(book.lots, symbol)
    ensures e.symbol != symbol ==> Lookup(Apply(book, e).realized, symbol) == Lookup(book.realized, symbol)
  {
  }

  /**
   * Symbols are independent: the queue and the realized total of a symbol
   * after all rows are those obtained from that symbol's rows alone.
   */
  lemma {:induction false} ReplayPerSymbol(entries: seq<Entry>, symbol: string)
    ensures QueueOf(Replay(entries).lots, symbol) == QueueOf(Replay(Only(entries, symbol)).lots, symbol)
    ensures Lookup(Replay(entries).realized, symbol) == Lookup(Replay(Only(entries, symbol)).realized, symbol)
  {
    if entries != [] {
      var init, e := entries[..|entries| - 1], entries[|entries| - 1];
      ReplayPerSymbol(init, symbol);
      var only := Only(init, symbol);
      if e.symbol == symbol {
        assert (only + [e])[..|only + [e]| - 1] == only;
        ApplyIsLocal(Replay(init), Replay(only), e, symbol);
      } else {
        ApplyIsLocal(Replay(init), Replay(init), e, symbol);
      }
    }
  }

  /** A row that is a sell of its symbol and enters the matching loop. */
  predicate MatchingSell(book: Book, e: Entry) {
    e.side == "sell" && Matches(QueueOf(book.lots, e.symbol), e.amount)
  }

  /**
   * The returned map has an entry for a symbol exactly when one of that
   * symbol's sells met an open lot.
   */
  lemma {:induction false} RealizedOnlyAfterAMatch(entries: seq<Entry>, symbol: string)
    ensures symbol in Replay(entries).realized
        <==> exists i :: 0 <= i < |entries| && entries[i].symbol == symbol && MatchingSell(Replay(entries[..i]), entries[i])
  {
    if entries != [] {
      var init, e := entries[..|entries| - 1], entries[|entries| - 1];
      RealizedOnlyAfterAMatch(init, symbol);
      assert forall i :: 0 <= i < |init| ==> entries[..i] == init[..i] && entries[i] == init[i];
      assert init == entries[..|init|];
      if symbol in Replay(entries).realized && symbol !in Replay(init).realized {
        assert e.symbol == symbol && MatchingSell(Replay(entries[..|init|]), entries[|init|]);
      }
    }
  }

  /** A symbol that is only ever bought has no entry in the returned map. */
  lemma BuyOnlySymbolIsAbsent(entries: seq<Entry>, symbol: string)
    requires forall i :: 0 <= i < |entries| && entries[i].symbol == symbol ==> entries[i].side != "sell"
    ensures symbol !in Replay(entries).realized
  {
    RealizedOnlyAfterAMatch(entries, symbol);
  }
}
