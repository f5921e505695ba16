/** The first backtest context, its broker, its account and the grid strategy as objects that call
    each other (wedge/backtest/backtest_context.h and .cc, backtest_broker.cc, order/,
    wedge/common/account.h, wedge/strategy/grid_strategy.cc). */
module GridBacktest {
  import opened Common
  import SlidingRsi
  import opened GridModel
  import opened GridTheorems

  class Account {
    var balance: real
    var position: real

    constructor (balance: real, position: real)
      ensures Value() == Funds(balance, position)
    {
      this.balance, this.position := balance, position;
    }

    ghost function Value(): Funds
      reads this
    {
      Funds(balance, position)
    }

    method UpdateBalance(value: real)
      modifies this
      ensures Value() == old(Value()).(balance := old(balance) + value)
    {
      balance := balance + value;
    }

    method UpdatePosition(value: real)
      modifies this
      ensures Value() == old(Value()).(position := old(position) + value)
    {
      position := position + value;
    }
  }

  /** What the loop over the map makes of a state with agreeing views, from a position on. */
  ghost function Outcome(g: Grid, from: nat, last: nat, c: Candle): Option<Grid> {
    if Agree(g) then Some(Scan(g, from, last, c)) else None
  }

  lemma OutcomeStep(g: Grid, from: nat, last: nat, c: Candle, k: nat)
    requires FirstKey(g.ctx.orders, from, last) == Some(k) && Outcome(g, from, last, c).Some?
    ensures Agree(g) && Known(g.st, k)
    ensures Outcome(Tried(g, k, c), k + 1, last, c) == Outcome(g, from, last, c)
  {
    TriedAgrees(g, k, c);
    ScanStep(g, from, last, c, k);
  }

  lemma OutcomeDone(g: Grid, from: nat, last: nat, c: Candle)
    requires FirstKey(g.ctx.orders, from, last).None? && Outcome(g, from, last, c).Some?
    ensures Agree(g) && Outcome(g, from, last, c) == Some(g)
  {
  }

  lemma RunStep(g: Grid, candles: seq<Candle>, i: nat, result: Grid)
    requires Consistent(g) && i < |candles| && ClosePositive(candles) && RunCandles(g, candles[i..]) == result
    ensures Consistent(Tick(g, candles[i])) && RunCandles(Tick(g, candles[i]), candles[i + 1..]) == result
  {
    RunFirst(g, candles[i], candles[i + 1..]);
    assert candles[i..] == [candles[i]] + candles[i + 1..];
  }

  class BacktestContext {
    const account: Account
    const commission: real
    var orders: map<nat, LimitOrder>
    var lastOrderIndex: nat

    constructor (balance: real, position: real, commission: real := 0.0)
      ensures State() == Context(Funds(balance, position), map[], 0, commission)
      ensures fresh(account)
    {
      account := new Account(balance, position);
      this.commission := commission;
      orders := map[];
      lastOrderIndex := 0;
    }

    ghost function State(): Context
      reads this, account
    {
      Context(account.Value(), orders, lastOrderIndex, commission)
    }

    method AddOrder(order: LimitOrder) returns (index: nat)
      modifies this
      ensures index == old(lastOrderIndex)
      ensures State() == old(State()).(orders := old(orders)[index := order], next := index + 1)
    {
      index := lastOrderIndex;
      lastOrderIndex := lastOrderIndex + 1;
      orders := orders[index := order];
    }

    method CancelOrder(index: nat)
      modifies this`orders
      ensures State() == old(State()).(orders := old(orders) - {index})
    {
      orders := orders - {index};
    }

    method ExecuteBuyOrder(quantity: real, price: real) returns (ok: bool)
      modifies account
      ensures var o := LimitOrder(Buy, quantity, price);
        && ok == old(Affordable(account.Value(), o))
        && account.Value() == if ok then Settle(old(account.Value()), o, commission) else old(account.Value())
    {
      var totalCost := quantity * price;
      if account.balance < totalCost {
        return false;
      }
      account.UpdateBalance(-totalCost);
      account.UpdatePosition(quantity * (1.0 - commission));
      return true;
    }

    method ExecuteSellOrder(quantity: real, price: real) returns (ok: bool)
      modifies account
      ensures var o := LimitOrder(Sell, quantity, price);
        && ok == old(Affordable(account.Value(), o))
        && account.Value() == if ok then Settle(old(account.Value()), o, commission) else old(account.Value())
    {
      if account.position < quantity {
        return false;
      }
      var totalIncome := quantity * price;
      account.UpdateBalance(totalIncome * (1.0 - commission));
      account.UpdatePosition(-quantity);
      return true;
    }

    /** LimitBuyOrder::update and LimitSellOrder::update. */
    method UpdateOrder(order: LimitOrder, candle: Candle) returns (filled: bool)
      modifies account
      ensures filled == (Reached(order, candle) && old(Affordable(account.Value(), order)))
      ensures filled <==>
        match order.side
        case Buy => candle.low <= order.price && order.quantity * order.price <= old(account.balance)
        case Sell => order.price <= candle.high && order.quantity <= old(account.position)
      ensures account.Value() == if filled then Settle(old(account.Value()), order, commission)
        else old(account.Value())
    {
      match order.side {
        case Buy =>
          if order.price < candle.low {
            return false;
          }
          filled := ExecuteBuyOrder(order.quantity, order.price);
        case Sell =>
          if order.price > candle.high {
            return false;
          }
          filled := ExecuteSellOrder(order.quantity, order.price);
      }
    }

    /** The loop over the ordered map. The iterator is the key it stands on; a filled order calls
        the strategy, which cancels and inserts entries before the iterator moves on. */
    method UpdateOrders(strategy: GridStrategy, candle: Candle)
      requires strategy.broker.context == this && Agree(strategy.Both())
      modifies this, account, strategy
      ensures Agree(strategy.Both()) && strategy.Both() == GridModel.UpdateOrders(old(strategy.Both()), candle)
    {
      ghost var result := GridModel.UpdateOrders(strategy.Both(), candle);
      var lastIndex := lastOrderIndex;
      ghost var from := 0;
      var cursor := FirstKey(orders, 0, lastIndex);
      while cursor.Some?
        invariant from <= lastIndex
        invariant cursor == FirstKey(orders, from, lastIndex)
        invariant Outcome(strategy.Both(), from, lastIndex, candle) == Some(result)
        decreases lastIndex - from
      {
        UpdateEntry(strategy, cursor.value, candle, from, lastIndex);
        from := cursor.value + 1;
        cursor := FirstKey(orders, cursor.value + 1, lastIndex);
      }
      OutcomeDone(strategy.Both(), from, lastIndex, candle);
    }

    /** The body of the loop. The result of the walk is not affected by its progress. */
    method UpdateEntry(strategy: GridStrategy, orderIndex: nat, candle: Candle, ghost from: nat, ghost last: nat)
      requires strategy.broker.context == this && FirstKey(orders, from, last) == Some(orderIndex)
      requires Outcome(strategy.Both(), from, last, candle).Some?
      modifies this, account, strategy
      ensures Outcome(strategy.Both(), orderIndex + 1, last, candle)
        == old(Outcome(strategy.Both(), from, last, candle))
    {
      OutcomeStep(strategy.Both(), from, last, candle, orderIndex);
      TryEntry(strategy, orderIndex, candle);
    }

    /** An order that executes is settled, reported to the strategy, and erased: the entry the iterator
        stands on survives the callback, so that erasing it is valid. */
    method TryEntry(strategy: GridStrategy, orderIndex: nat, candle: Candle)
      requires strategy.broker.context == this && Agree(strategy.Both()) && orderIndex in orders
      modifies this, account, strategy
      ensures Known(old(strategy.State()), orderIndex)
      ensures strategy.Both() == Tried(old(strategy.Both()), orderIndex, candle)
    {
      ghost var g := strategy.Both();
      CallbackSafe(g, orderIndex);
      var filled := UpdateOrder(orders[orderIndex], candle);
      if filled {
        strategy.OnOrderFilled(orderIndex);
        assert orderIndex in orders;
        orders := orders - {orderIndex};
      }
    }

    /** One turn of run: the context fills, then the strategy reacts. */
    method Turn(strategy: GridStrategy, candle: Candle)
      requires strategy.broker.context == this && strategy.index.Valid()
      requires Consistent(strategy.Both()) && candle.close > 0.0
      modifies this, account, strategy, strategy.index
      ensures strategy.index.Valid() && strategy.Both() == Tick(old(strategy.Both()), candle)
    {
      UpdateOrdersKeeps(strategy.Both(), candle);
      UpdateOrders(strategy, candle);
      strategy.Update(candle);
    }

    method Run(strategy: GridStrategy, candles: seq<Candle>)
      requires strategy.broker.context == this && strategy.index.Valid()
      requires Consistent(strategy.Both()) && ClosePositive(candles)
      modifies this, account, strategy, strategy.index
      ensures Consistent(strategy.Both()) && strategy.index.Valid()
      ensures strategy.Both() == RunCandles(old(strategy.Both()), candles)
    {
      ghost var result := RunCandles(strategy.Both(), candles);
      assert candles[0..] == candles;
      var i := 0;
      while i < |candles|
        invariant 0 <= i <= |candles|
        invariant Consistent(strategy.Both()) && strategy.index.Valid()
        invariant RunCandles(strategy.Both(), candles[i..]) == result
      {
        RunStep(strategy.Both(), candles, i, result);
        Turn(strategy, candles[i]);
        i := i + 1;
      }
    }
  }

  class BacktestBroker {
    const context: BacktestContext

    constructor (context: BacktestContext)
      ensures this.context == context
    {
      this.context := context;
    }

    method LimitBuyOrder(quantity: real, price: real) returns (index: nat)
      modifies context
      ensures index == old(context.lastOrderIndex)
      ensures context.State() == old(context.State()).(
        orders := old(context.orders)[index := LimitOrder(Buy, quantity, price)], next := index + 1)
    {
      index := context.AddOrder(LimitOrder(Buy, quantity, price));
    }

    method LimitSellOrder(quantity: real, price: real) returns (index: nat)
      modifies context
      ensures index == old(context.lastOrderIndex)
      ensures context.State() == old(context.State()).(
        orders := old(context.orders)[index := LimitOrder(Sell, quantity, price)], next := index + 1)
    {
      index := context.AddOrder(LimitOrder(Sell, quantity, price));
    }

    method Cancel(index: nat)
      modifies context
      ensures context.State() == old(context.State()).(orders := old(context.orders) - {index})
    {
      context.CancelOrder(index);
    }

    /** The caller gets a copy of the account. */
    method GetAccount() returns (copy: Account)
      ensures fresh(copy) && copy.Value() == context.account.Value()
    {
      copy := new Account(context.account.balance, context.account.position);
    }
  }

  class GridStrategy {
    const broker: BacktestBroker
    const index: SlidingRsi.RelativeStrengthIndex
    const gridCount: nat
    const gridSpacing: real
    var baselinePrice: real
    var orderVolume: real
    var orderBalance: int
    var buyOrder: Option<OrderInfo>
    var sellOrder: Option<OrderInfo>
    ghost var fills: seq<GridFill>
    ghost var even: bool
    ghost var placed: Funds

    constructor (broker: BacktestBroker, index: SlidingRsi.RelativeStrengthIndex, gridCount: nat, gridSpacing: real)
      requires index.Valid()
      ensures this.broker == broker && this.index == index
      ensures State() == Strategy(gridCount, gridSpacing, 0.0, 0.0, None, None, 0, index.State(), [], false,
        Funds(0.0, 0.0))
    {
      this.broker, this.index := broker, index;
      this.gridCount, this.gridSpacing := gridCount, gridSpacing;
      baselinePrice, orderVolume, orderBalance := 0.0, 0.0, 0;
      buyOrder, sellOrder := None, None;
      fills, even, placed := [], false, Funds(0.0, 0.0);
    }

    ghost function State(): Strategy
      reads this, index
    {
      Strategy(gridCount, gridSpacing, baselinePrice, orderVolume, buyOrder, sellOrder, orderBalance, index.State(),
        fills, even, placed)
    }

    /** The strategy together with the context it trades in. */
    ghost function Both(): Grid
      reads this, index, broker.context, broker.context.account
    {
      Grid(broker.context.State(), State())
    }

    method CancelAllOrders()
      modifies this`buyOrder, this`sellOrder, broker.context
      ensures Both() == CancelAll(old(Both()))
    {
      if buyOrder.Some? {
        broker.Cancel(buyOrder.value.index);
        buyOrder := None;
      }
      if sellOrder.Some? {
        broker.Cancel(sellOrder.value.index);
        sellOrder := None;
      }
    }

    method PlaceBuyOrder(price: real, volume: real)
      requires buyOrder.None?
      modifies this`buyOrder, broker.context
      ensures Both() == PlaceBuy(old(Both()), price, volume)
    {
      var id := broker.LimitBuyOrder(volume, price);
      buyOrder := Some(OrderInfo(id, price));
    }

    method PlaceSellOrder(price: real, volume: real)
      requires sellOrder.None?
      modifies this`sellOrder, broker.context
      ensures Both() == PlaceSell(old(Both()), price, volume)
    {
      var id := broker.LimitSellOrder(volume, price);
      sellOrder := Some(OrderInfo(id, price));
    }

    method PlaceOrder(filledPrice: real)
      requires buyOrder.None? && sellOrder.None?
      modifies this`buyOrder, this`sellOrder, broker.context
      ensures Both() == PlacePair(old(Both()), filledPrice)
    {
      var spacing := Share(gridSpacing, baselinePrice);
      PlaceSellOrder(filledPrice + spacing, orderVolume);
      PlaceBuyOrder(filledPrice - spacing, orderVolume);
    }

    /** The strategy has the order on record: the filled price is a number. */
    method OnOrderFilled(orderIndex: nat)
      requires Known(State(), orderIndex) && orderIndex in broker.context.orders
      requires buyOrder.Some? && sellOrder.Some? ==> buyOrder.value.index != sellOrder.value.index
      modifies this, broker.context
      ensures Both() == GridModel.OnOrderFilled(old(Both()), orderIndex)
    {
      var filledPrice := TakeOffRecord(orderIndex);
      assert filledPrice.Some?;
      CancelAllOrders();
      PlaceOrder(filledPrice.value);
    }

    /** The first part of on_order_filled. */
    method TakeOffRecord(orderIndex: nat) returns (filledPrice: Option<real>)
      requires Known(State(), orderIndex) && orderIndex in broker.context.orders
      requires buyOrder.Some? && sellOrder.Some? ==> buyOrder.value.index != sellOrder.value.index
      modifies this
      ensures filledPrice == Some(FilledPrice(old(State()), orderIndex))
      ensures Both() == Recorded(old(Both()), orderIndex)
    {
      ghost var o := broker.context.orders[orderIndex];
      filledPrice := None;
      if buyOrder.Some? && buyOrder.value.index == orderIndex {
        filledPrice := Some(buyOrder.value.price);
        buyOrder := None;
        orderBalance := orderBalance + 1;
      }
      if sellOrder.Some? && sellOrder.value.index == orderIndex {
        filledPrice := Some(sellOrder.value.price);
        sellOrder := None;
        orderBalance := orderBalance - 1;
      }
      fills := fills + [GridFill(o.side, filledPrice.value, o.quantity, broker.context.account.Value())];
    }

    method PlaceInitialOrders(currentPrice: real)
      requires buyOrder.None? && sellOrder.None? && currentPrice > 0.0 && gridCount > 0
      modifies this, broker.context
      ensures Both() == PlaceInitial(old(Both()), currentPrice)
    {
      var account := broker.GetAccount();
      var balance, position := account.balance, account.position;
      var totalValue := balance + position * currentPrice;
      var targetPosition := totalValue / currentPrice / 2.0;
      assert targetPosition == Target(broker.context.account.Value(), currentPrice);
      orderVolume := targetPosition / gridCount as real;
      orderBalance := 0;
      fills := [];
      var small := Imbalance(targetPosition, position, currentPrice) < 7.0;
      even, placed := !small, broker.context.account.Value();
      if small {
        PlaceBuyOrder(currentPrice, orderVolume);
      } else if targetPosition < position {
        PlaceSellOrder(currentPrice, position - targetPosition);
      } else {
        PlaceBuyOrder(currentPrice, targetPosition - position);
      }
    }

    method Update(candle: Candle)
      requires index.Valid() && candle.close > 0.0 && gridCount > 0
      modifies this, index, broker.context
      ensures index.Valid() && Both() == StrategyUpdate(old(Both()), candle)
    {
      index.Update(candle.close);
      ghost var g := Both();
      var value := index.Reading();
      if value.NoValue? {
        return;
      }
      if value.Percent? && value.percent < 20.0 {
        CancelAllOrders();
        return;
      }
      Trade(candle.close);
    }

    /** The rest of update: open the grid, or reopen it around a price outside the band. */
    method Trade(price: real)
      requires price > 0.0 && gridCount > 0
      requires !SlidingRsi.Value(index.State()).NoValue? && !SlidingRsi.Low(index.State())
      modifies this, broker.context
      ensures Both() == React(old(Both()), price)
    {
      if sellOrder.None? && buyOrder.None? {
        baselinePrice := price;
        PlaceInitialOrders(price);
        return;
      }
      var bound := Bound(baselinePrice, gridSpacing, gridCount);
      if price < baselinePrice - bound || baselinePrice + bound < price {
        baselinePrice := price;
        CancelAllOrders();
        PlaceInitialOrders(price);
      }
    }
  }

  /** The backtest program: the strategy's index is fed the prices of its configuration, and the
      context runs the strategy over the candles. */
  method Backtest(balance: real, position: real, commission: real, gridCount: nat, gridSpacing: real,
    rsiPrices: seq<real>, candles: seq<Candle>) returns (endBalance: real, endPosition: real)
    requires gridCount > 0 && ClosePositive(candles)
    ensures Consistent(Start(Funds(balance, position), commission, gridCount, gridSpacing,
      SlidingRsi.Preload(rsiPrices)))
    ensures
      var start := Start(Funds(balance, position), commission, gridCount, gridSpacing, SlidingRsi.Preload(rsiPrices));
      Funds(endBalance, endPosition) == RunCandles(start, candles).ctx.funds
    ensures Sane(Funds(balance, position), commission, gridSpacing) && AllSound(candles) ==>
      endBalance >= 0.0 && endPosition >= 0.0
  {
    var rsi := SlidingRsi.Preload(rsiPrices);
    StartKeeps(Funds(balance, position), commission, gridCount, gridSpacing, rsi);
    EveryBacktest(Funds(balance, position), commission, gridCount, gridSpacing, rsi, candles);
    var context := new BacktestContext(balance, position, commission);
    var broker := new BacktestBroker(context);
    var index := LoadIndex(rsiPrices);
    var strategy := new GridStrategy(broker, index, gridCount, gridSpacing);
    context.Run(strategy, candles);
    endBalance, endPosition := context.account.balance, context.account.position;
  }

  method LoadIndex(prices: seq<real>) returns (index: SlidingRsi.RelativeStrengthIndex)
    ensures fresh(index) && index.Valid() && index.State() == SlidingRsi.Preload(prices)
    ensures SlidingRsi.Tracks(index.State(), prices)
  {
    index := new SlidingRsi.RelativeStrengthIndex();
    assert prices[0..] == prices;
    var i := 0;
    while i < |prices|
      invariant 0 <= i <= |prices|
      invariant fresh(index) && index.Valid()
      invariant SlidingRsi.PushAll(index.State(), prices[i..]) == SlidingRsi.Preload(prices)
    {
      SlidingRsi.PushAllStep(index.State(), prices, i);
      index.Update(prices[i]);
      i := i + 1;
    }
    SlidingRsi.PreloadTracks(prices);
  }
}
