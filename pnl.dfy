/**
 * The exact-arithmetic FIFO engine of app/pnl.py.
 *
 * A trade is a signed quantity and a price: a positive quantity is a buy and
 * opens a lot; any other quantity is a sell of its negation, matched against
 * the oldest open lots first. Decimal amounts are modelled as `real`.
 */
module Pnl {

  /** One `(quantity, price)` pair; the same shape is used for trades and for open lots. */
  datatype TradeLot = TradeLot(quantity: real, price: real)

  /** The state of a matching pass: the open lots, oldest first, and the realized P&L so far. */
  datatype Book = Book(inventory: seq<TradeLot>, realized: real)

  function Min(a: real, b: real): real {
    if a <= b then a else b
  }

  /** Total open quantity of a list of lots. */
  function TotalQuantity(lots: seq<TradeLot>): real {
    if lots == [] then 0.0 else lots[0].quantity + TotalQuantity(lots[1..])
  }

  /** What the open lots cost: the sum of quantity times price. */
  function CostBasis(lots: seq<TradeLot>): real {
    if lots == [] then 0.0 else lots[0].quantity * lots[0].price + CostBasis(lots[1..])
  }

  /** What the lots would fetch if all sold at `price`. */
  function MarketValue(lots: seq<TradeLot>, price: real): real {
    if lots == [] then 0.0 else lots[0].quantity * price + MarketValue(lots[1..], price)
  }

  /** Every open lot holds a positive quantity. */
  predicate AllPositive(lots: seq<TradeLot>) {
    forall i :: 0 <= i < |lots| ==> lots[i].quantity > 0.0
  }

  /**
   * The sell loop of `fifo_realized_pnl`: while quantity is left to sell and a
   * lot is open, match the front lot. Returns the lots left open and the P&L
   * this one sell realizes. Each round either pops the front lot or matches
   * the whole remaining sell, which is what the measure says.
   */
  function MatchSell(inventory: seq<TradeLot>, sellQty: real, sellPrice: real): (r: Book)
    ensures |r.inventory| <= |inventory|
    ensures sellQty <= 0.0 ==> r == Book(inventory, 0.0)
    decreases |inventory| + (if sellQty > 0.0 then 1 else 0)
  {
    if sellQty <= 0.0 || inventory == [] then Book(inventory, 0.0)
    else
      var front := inventory[0];
      var matched := Min(front.quantity, sellQty);
      var rest :=
        if matched == front.quantity then inventory[1..]
        else inventory[0 := TradeLot(front.quantity - matched, front.price)];
      var after := MatchSell(rest, sellQty - matched, sellPrice);
      Book(after.inventory, (sellPrice - front.price) * matched + after.realized)
  }

  /** One iteration of the outer loop of `fifo_realized_pnl`: a buy realizes nothing, a sell opens no lot. */
  function Step(book: Book, trade: TradeLot): (r: Book)
    ensures trade.quantity > 0.0 ==> r.realized == book.realized
    ensures trade.quantity <= 0.0 ==> |r.inventory| <= |book.inventory|
  {
    if trade.quantity > 0.0 then Book(book.inventory + [trade], book.realized)
    else
      var sold := MatchSell(book.inventory, -trade.quantity, trade.price);
      Book(sold.inventory, book.realized + sold.realized)
  }

  /** The state after processing `trades` in order from an empty inventory. */
  function Replay(trades: seq<TradeLot>): Book {
    if trades == [] then Book([], 0.0)
    else Step(Replay(trades[..|trades| - 1]), trades[|trades| - 1])
  }

  /**
   * The `while` loop of one sell: match the front lot, add its P&L to the
   * running total, then pop it or overwrite it with what is left of it.
   */
  method MatchAgainstInventory(inventory: seq<TradeLot>, sellQty: real, sellPrice: real, realized: real)
    returns (left: seq<TradeLot>, total: real)
    ensures left == MatchSell(inventory, sellQty, sellPrice).inventory
    ensures total == realized + MatchSell(inventory, sellQty, sellPrice).realized
  {
    left, total := inventory, realized;
    var remain := sellQty;
    while remain > 0.0 && left != []
      invariant StillToSell(MatchSell(inventory, sellQty, sellPrice), realized, left, remain, sellPrice, total)
      decreases |left| + (if remain > 0.0 then 1 else 0)
    {
      ghost var (left0, remain0, total0) := (left, remain, total);
      var buyQty, buyPrice := left[0].quantity, left[0].price;
      var matched := Min(buyQty, remain);
      total := total + (sellPrice - buyPrice) * matched;
      if matched == buyQty {
        left := left[1..];
      } else {
        left := left[0 := TradeLot(buyQty - matched, buyPrice)];
      }
      remain := remain - matched;
      SellOneRound(MatchSell(inventory, sellQty, sellPrice), realized, left0, remain0, sellPrice, total0, matched, left);
    }
  }

  /**
   * The loop invariant of `MatchAgainstInventory`: selling what is left
   * against the lots left, on top of the running total, ends where the whole
   * sell against the whole inventory ends.
   */
  ghost predicate StillToSell(whole: Book, realized: real, left: seq<TradeLot>, remain: real, sellPrice: real, total: real) {
    var rest := MatchSell(left, remain, sellPrice);
    whole.inventory == rest.inventory && realized + whole.realized == total + rest.realized
  }

  /** One round of the sell loop keeps `StillToSell`. */
  lemma SellOneRound(whole: Book, realized: real, left: seq<TradeLot>, remain: real, sellPrice: real, total: real,
                     matched: real, next: seq<TradeLot>)
    requires StillToSell(whole, realized, left, remain, sellPrice, total)
    requires remain > 0.0 && left != []
    requires matched == Min(left[0].quantity, remain)
    requires next == if matched == left[0].quantity then left[1..] else left[0 := TradeLot(left[0].quantity - matched, left[0].price)]
    ensures StillToSell(whole, realized, next, remain - matched, sellPrice, total + (sellPrice - left[0].price) * matched)
  {
    assert MatchSell(left, remain, sellPrice).inventory == MatchSell(next, remain - matched, sellPrice).inventory;
    assert MatchSell(left, remain, sellPrice).realized
        == (sellPrice - left[0].price) * matched + MatchSell(next, remain - matched, sellPrice).realized;
  }

  /**
   * `fifo_realized_pnl`: the inventory is a list updated in place (append,
   * pop of the front, overwrite of the front), realized an accumulator.
   */
  method FifoRealizedPnl(trades: seq<TradeLot>) returns (realized: real)
    ensures realized == Replay(trades).realized
  {
    realized := 0.0;
    var inventory: seq<TradeLot> := [];
    for i := 0 to |trades|
      invariant Book(inventory, realized) == Replay(trades[..i])
    {
      assert trades[..i + 1][..i] == trades[..i];
      var quantity, price := trades[i].quantity, trades[i].price;
      if quantity > 0.0 {
        inventory := inventory + [trades[i]];
        continue;
      }
      var sellQty := -quantity;
      var sellPrice := price;
      inventory, realized := MatchAgainstInventory(inventory, sellQty, sellPrice, realized);
    }
    assert trades[..|trades|] == trades;
  }

  /** `unrealized_pnl`: the gain the open lots would show if valued at `marketPrice`. */
  function UnrealizedPnl(inventory: seq<TradeLot>, marketPrice: real): (r: real)
    ensures inventory == [] ==> r == 0.0
  {
    if inventory == [] then 0.0
    else (marketPrice - inventory[0].price) * inventory[0].quantity + UnrealizedPnl(inventory[1..], marketPrice)
  }

  // ---------------------------------------------------------------------------
  // Properties of the matching pass
  // ---------------------------------------------------------------------------

  lemma {:induction false} TotalOfPositiveLots(lots: seq<TradeLot>)
    requires AllPositive(lots)
    ensures TotalQuantity(lots) >= 0.0
    ensures TotalQuantity(lots) == 0.0 <==> lots == []
  {
    if lots != [] {
      TotalOfPositiveLots(lots[1..]);
    }
  }

  /** A stream of buys realizes nothing and every buy stays open as a lot, in order. */
  lemma {:induction false} BuysOnlyKeepEveryLot(trades: seq<TradeLot>)
    requires forall i :: 0 <= i < |trades| ==> trades[i].quantity > 0.0
    ensures Replay(trades) == Book(trades, 0.0)
  {
    if trades != [] {
      var init := trades[..|trades| - 1];
      BuysOnlyKeepEveryLot(init);
      assert init + [trades[|trades| - 1]] == trades;
    }
  }

  /** A zero quantity is a sell of nothing: neither the lots nor realized change. */
  lemma ZeroQuantityChangesNothing(book: Book, price: real)
    ensures Step(book, TradeLot(0.0, price)) == book
  {
  }

  /**
   * Matching is first-in first-out: the lots left open are the original list
   * with a prefix of fully consumed lots removed and, possibly, the next lot
   * shrunk in place at its own price.
   */
  lemma {:induction false} MatchSellTouchesOnlyFront(inventory: seq<TradeLot>, sellQty: real, sellPrice: real)
    requires AllPositive(inventory)
    ensures var left := MatchSell(inventory, sellQty, sellPrice).inventory;
      var k := |inventory| - |left|;
      && 0 <= k <= |inventory|
      && (left != [] ==>
            && left[1..] == inventory[k + 1..]
            && left[0].price == inventory[k].price
            && 0.0 < left[0].quantity <= inventory[k].quantity)
  {
    if sellQty > 0.0 && inventory != [] {
      var front := inventory[0];
      var matched := Min(front.quantity, sellQty);
      if matched == front.quantity {
        MatchSellTouchesOnlyFront(inventory[1..], sellQty - matched, sellPrice);
        var left := MatchSell(inventory[1..], sellQty - matched, sellPrice).inventory;
        var k := |inventory| - |left|;
        if left != [] {
          assert inventory[1..][k - 1 + 1..] == inventory[k + 1..];
        }
      }
    }
  }

  /**
   * Quantity is conserved: a sell of `sellQty` removes `min(sellQty, open)`
   * from the open total, and the lots stay positive.
   */
  lemma {:induction false} MatchSellConservesQuantity(inventory: seq<TradeLot>, sellQty: real, sellPrice: real)
    requires AllPositive(inventory) && sellQty >= 0.0
    ensures var r := MatchSell(inventory, sellQty, sellPrice);
      && AllPositive(r.inventory)
      && TotalQuantity(r.inventory) == TotalQuantity(inventory) - Min(sellQty, TotalQuantity(inventory))
  {
    TotalOfPositiveLots(inventory);
    if sellQty > 0.0 && inventory != [] {
      var front := inventory[0];
      var matched := Min(front.quantity, sellQty);
      TotalOfPositiveLots(inventory[1..]);
      if matched == front.quantity {
        MatchSellConservesQuantity(inventory[1..], sellQty - matched, sellPrice);
      } else {
        var rest := inventory[0 := TradeLot(front.quantity - matched, front.price)];
        assert rest[1..] == inventory[1..];
        assert MatchSell(inventory, sellQty, sellPrice).inventory == rest;
      }
    }
  }

  /**
   * What one sell realizes is the proceeds of the quantity it removes from the
   * open lots minus the cost basis it removes with it.
   */
  lemma {:induction false} MatchSellRealizesProceedsMinusCost(inventory: seq<TradeLot>, sellQty: real, sellPrice: real)
    ensures RealizesProceedsMinusCost(inventory, sellQty, sellPrice)
  {
    if sellQty > 0.0 && inventory != [] {
      var q := inventory[0].quantity;
      if Min(q, sellQty) == q {
        MatchSellRealizesProceedsMinusCost(inventory[1..], sellQty - q, sellPrice);
        FrontPoppedStep(inventory, sellQty, sellPrice);
      } else {
        FrontShrunkStep(inventory, sellQty, sellPrice);
      }
    }
  }

  /** The statement of `MatchSellRealizesProceedsMinusCost` for one sell. */
  predicate RealizesProceedsMinusCost(inventory: seq<TradeLot>, sellQty: real, sellPrice: real) {
    var r := MatchSell(inventory, sellQty, sellPrice);
    r.realized == (MarketValue(inventory, sellPrice) - MarketValue(r.inventory, sellPrice))
                  - (CostBasis(inventory) - CostBasis(r.inventory))
  }

  /** The step of the induction where the front lot is used up. */
  lemma FrontPoppedStep(inventory: seq<TradeLot>, sellQty: real, sellPrice: real)
    requires sellQty > 0.0 && inventory != [] && Min(inventory[0].quantity, sellQty) == inventory[0].quantity
    requires RealizesProceedsMinusCost(inventory[1..], sellQty - inventory[0].quantity, sellPrice)
    ensures RealizesProceedsMinusCost(inventory, sellQty, sellPrice)
  {
    var tail := inventory[1..];
    var q, pr, p := inventory[0].quantity, inventory[0].price, sellPrice;
    var left := sellQty - q;
    var after := MatchSell(tail, left, p);
    assert MatchSell(inventory, sellQty, p) == Book(after.inventory, (p - pr) * q + after.realized);
    PoppedLotGain(q, pr, p, after.realized, MarketValue(inventory, p), MarketValue(tail, p), MarketValue(after.inventory, p),
                  CostBasis(inventory), CostBasis(tail), CostBasis(after.inventory));
  }

  /** The arithmetic of `FrontPoppedStep`: the popped lot's gain plus the rest's is the value given up minus the cost given up. */
  lemma PoppedLotGain(q: real, pr: real, p: real, restGain: real, value: real, tailValue: real, leftValue: real,
                      cost: real, tailCost: real, leftCost: real)
    requires value == q * p + tailValue && cost == q * pr + tailCost
    requires restGain == (tailValue - leftValue) - (tailCost - leftCost)
    ensures (p - pr) * q + restGain == (value - leftValue) - (cost - leftCost)
  {
    GainOfOneMatch(p, pr, q);
  }

  /** The step of the induction where the sell ends inside the front lot. */
  lemma FrontShrunkStep(inventory: seq<TradeLot>, sellQty: real, sellPrice: real)
    requires sellQty > 0.0 && inventory != [] && Min(inventory[0].quantity, sellQty) != inventory[0].quantity
    ensures RealizesProceedsMinusCost(inventory, sellQty, sellPrice)
  {
    var q, pr, p := inventory[0].quantity, inventory[0].price, sellPrice;
    var rest := inventory[0 := TradeLot(q - sellQty, pr)];
    assert rest[1..] == inventory[1..];
    assert MatchSell(rest, 0.0, p) == Book(rest, 0.0);
    assert MatchSell(inventory, sellQty, p) == Book(rest, (p - pr) * sellQty + 0.0);
    GainOfOneMatch(p, pr, sellQty);
    GainOfOneMatch(p, pr, q);
    GainOfOneMatch(p, pr, q - sellQty);
  }

  /** Selling `m` units bought at `pr` for `p` gains the value at `p` minus the cost at `pr`. */
  lemma GainOfOneMatch(p: real, pr: real, m: real)
    ensures (p - pr) * m == m * p - m * pr
  {
  }

  /** The market value of lots is the price times their total quantity. */
  lemma {:induction false} MarketValueIsPriceTimesTotal(lots: seq<TradeLot>, price: real)
    ensures MarketValue(lots, price) == price * TotalQuantity(lots)
  {
    if lots != [] {
      MarketValueIsPriceTimesTotal(lots[1..], price);
      assert price * TotalQuantity(lots) == price * lots[0].quantity + price * TotalQuantity(lots[1..]);
    }
  }

  /** A sell larger than the open quantity empties the lots; the excess realizes nothing. */
  lemma OversellIsDropped(inventory: seq<TradeLot>, sellQty: real, sellPrice: real)
    requires AllPositive(inventory) && sellQty >= TotalQuantity(inventory)
    ensures var r := MatchSell(inventory, sellQty, sellPrice);
      && r.inventory == []
      && r.realized == sellPrice * TotalQuantity(inventory) - CostBasis(inventory)
  {
    TotalOfPositiveLots(inventory);
    MatchSellConservesQuantity(inventory, sellQty, sellPrice);
    MatchSellRealizesProceedsMinusCost(inventory, sellQty, sellPrice);
    MarketValueIsPriceTimesTotal(inventory, sellPrice);
    TotalOfPositiveLots(MatchSell(inventory, sellQty, sellPrice).inventory);
  }

  /** A sell smaller than the open quantity is matched in full and leaves lots open. */
  lemma PartialSellIsMatchedInFull(inventory: seq<TradeLot>, sellQty: real, sellPrice: real)
    requires AllPositive(inventory) && 0.0 <= sellQty < TotalQuantity(inventory)
    ensures var r := MatchSell(inventory, sellQty, sellPrice);
      && r.inventory != []
      && TotalQuantity(r.inventory) == TotalQuantity(inventory) - sellQty
  {
    MatchSellConservesQuantity(inventory, sellQty, sellPrice);
  }

  /** Every lot the engine holds is positive, whatever the trade stream. */
  lemma {:induction false} ReplayKeepsLotsPositive(trades: seq<TradeLot>)
    ensures AllPositive(Replay(trades).inventory)
  {
    if trades != [] {
      var init := trades[..|trades| - 1];
      var last := trades[|trades| - 1];
      ReplayKeepsLotsPositive(init);
      if last.quantity <= 0.0 {
        MatchSellConservesQuantity(Replay(init).inventory, -last.quantity, last.price);
      }
    }
  }

  /** `unrealized_pnl` is the market value of the open lots minus their cost basis. */
  lemma {:induction false} UnrealizedIsValueMinusCost(inventory: seq<TradeLot>, marketPrice: real)
    ensures UnrealizedPnl(inventory, marketPrice) == MarketValue(inventory, marketPrice) - CostBasis(inventory)
  {
    if inventory != [] {
      UnrealizedIsValueMinusCost(inventory[1..], marketPrice);
      GainOfOneMatch(marketPrice, inventory[0].price, inventory[0].quantity);
    }
  }

  /**
   * Selling at a price moves P&L from unrealized to realized: what the sell
   * realizes plus the unrealized P&L left at that price equals the unrealized
   * P&L before the sell.
   */
  lemma SellMovesUnrealizedToRealized(inventory: seq<TradeLot>, sellQty: real, sellPrice: real)
    ensures var r := MatchSell(inventory, sellQty, sellPrice);
      r.realized + UnrealizedPnl(r.inventory, sellPrice) == UnrealizedPnl(inventory, sellPrice)
  {
    var r := MatchSell(inventory, sellQty, sellPrice);
    MatchSellRealizesProceedsMinusCost(inventory, sellQty, sellPrice);
    UnrealizedIsValueMinusCost(inventory, sellPrice);
    UnrealizedIsValueMinusCost(r.inventory, sellPrice);
  }

  /** Buy 1 at 100, then sell 1 at 110: realized P&L is 10. */
  lemma OneRoundTripExample()
    ensures Replay([TradeLot(1.0, 100.0), TradeLot(-1.0, 110.0)]) == Book([], 10.0)
  {
    var trades := [TradeLot(1.0, 100.0), TradeLot(-1.0, 110.0)];
    assert trades[..1] == [TradeLot(1.0, 100.0)];
    assert trades[..1][..0] == [];
    assert Replay(trades[..1]) == Book([TradeLot(1.0, 100.0)], 0.0);
    assert MatchSell([], 0.0, 110.0) == Book([], 0.0);
    assert MatchSell([TradeLot(1.0, 100.0)], 1.0, 110.0) == Book([], 10.0);
  }

  /** Buy 2 at 100, buy 1 at 110, sell 2 at 120: realized 40, one lot of 1 at 110 left. */
  lemma PartialInventoryExample()
    ensures Replay([TradeLot(2.0, 100.0), TradeLot(1.0, 110.0), TradeLot(-2.0, 120.0)])
         == Book([TradeLot(1.0, 110.0)], 40.0)
  {
    var trades := [TradeLot(2.0, 100.0), TradeLot(1.0, 110.0), TradeLot(-2.0, 120.0)];
    assert trades[..2] == [TradeLot(2.0, 100.0), TradeLot(1.0, 110.0)];
    BuysOnlyKeepEveryLot(trades[..2]);
    var lots := [TradeLot(2.0, 100.0), TradeLot(1.0, 110.0)];
    assert lots[1..] == [TradeLot(1.0, 110.0)];
    assert MatchSell(lots[1..], 0.0, 120.0) == Book(lots[1..], 0.0);
    assert MatchSell(lots, 2.0, 120.0) == Book([TradeLot(1.0, 110.0)], 40.0);
  }

  /** A sell with nothing open realizes nothing and leaves nothing open. */
  lemma SellWithoutLotsExample()
    ensures Replay([TradeLot(-1.0, 100.0)]) == Book([], 0.0)
  {
    assert [TradeLot(-1.0, 100.0)][..0] == [];
  }
}
