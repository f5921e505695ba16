/** The grid strategy and the first backtest context as one state, and their transitions as
    functions on values (wedge/strategy/grid_strategy.cc, wedge/backtest/backtest_context.cc). */
module GridModel {
  import opened Common
  import opened SlidingRsi

  datatype LimitOrder = LimitOrder(side: OrderSide, quantity: real, price: real)

  datatype Funds = Funds(balance: real, position: real)

  /** orders is the ordered map of open orders, next is last_order_index_. */
  datatype Context = Context(funds: Funds, orders: map<nat, LimitOrder>, next: nat, commission: real)

  datatype OrderInfo = OrderInfo(index: nat, price: real)

  /** One entry of the fill history; funds is the account right after the fill. */
  datatype GridFill = GridFill(side: OrderSide, price: real, quantity: real, funds: Funds)

  /** The last three fields are histories: the fills since the last call of place_initial_orders,
      whether that call took the branch that rebalances to equal shares, and the funds it found. */
  datatype Strategy = Strategy(
    gridCount: nat, gridSpacing: real, baseline: real, volume: real,
    buy: Option<OrderInfo>, sell: Option<OrderInfo>, orderBalance: int, rsi: Rsi,
    fills: seq<GridFill>, even: bool, placed: Funds)

  datatype Grid = Grid(ctx: Context, st: Strategy)

  // ---------- the account ----------

  function Cost(o: LimitOrder): real {
    o.quantity * o.price
  }

  /** The funds check of execute_buy_order and execute_sell_order. */
  predicate Affordable(f: Funds, o: LimitOrder) {
    match o.side
    case Buy => f.balance >= Cost(o)
    case Sell => f.position >= o.quantity
  }

  function Settle(f: Funds, o: LimitOrder, commission: real): Funds {
    match o.side
    case Buy => Funds(f.balance - Cost(o), f.position + o.quantity * (1.0 - commission))
    case Sell => Funds(f.balance + Cost(o) * (1.0 - commission), f.position - o.quantity)
  }

  /** The price condition of the two limit orders. */
  predicate Reached(o: LimitOrder, c: Candle) {
    match o.side
    case Buy => o.price >= c.low
    case Sell => o.price <= c.high
  }

  // ---------- the strategy's use of the broker ----------

  function Cancel(g: Grid, index: nat): Grid {
    g.(ctx := g.ctx.(orders := g.ctx.orders - {index}))
  }

  function CancelAll(g: Grid): Grid {
    var g1 := if g.st.buy.Some? then Cancel(g, g.st.buy.value.index) else g;
    var g2 := if g.st.sell.Some? then Cancel(g1, g.st.sell.value.index) else g1;
    g2.(st := g2.st.(buy := None, sell := None))
  }

  function AddOrder(g: Grid, o: LimitOrder): Grid {
    g.(ctx := g.ctx.(orders := g.ctx.orders[g.ctx.next := o], next := g.ctx.next + 1))
  }

  function PlaceBuy(g: Grid, price: real, volume: real): Grid {
    var r := AddOrder(g, LimitOrder(Buy, volume, price));
    r.(st := r.st.(buy := Some(OrderInfo(g.ctx.next, price))))
  }

  function PlaceSell(g: Grid, price: real, volume: real): Grid {
    var r := AddOrder(g, LimitOrder(Sell, volume, price));
    r.(st := r.st.(sell := Some(OrderInfo(g.ctx.next, price))))
  }

  function Share(fraction: real, price: real): real {
    fraction * price
  }

  function Spacing(st: Strategy): real {
    Share(st.gridSpacing, st.baseline)
  }

  /** place_order: the sell comes first, so it gets the smaller index. */
  function PlacePair(g: Grid, filledPrice: real): Grid {
    PlaceBuy(PlaceSell(g, filledPrice + Spacing(g.st), g.st.volume), filledPrice - Spacing(g.st), g.st.volume)
  }

  function Abs(x: real): real {
    if x < 0.0 then -x else x
  }

  /** Half of the total value, in units of the position. */
  function Target(f: Funds, price: real): real
    requires price > 0.0
  {
    (f.balance + f.position * price) / price / 2.0
  }

  /** The quote value of the gap between the target and the position. */
  function Imbalance(target: real, position: real, price: real): real {
    Abs(target - position) * price
  }

  /** place_initial_orders: rebalance to equal shares, or buy one grid volume when the imbalance is
      below the exchange's minimum. */
  function PlaceInitial(g: Grid, price: real): Grid
    requires price > 0.0 && g.st.gridCount > 0
  {
    var position := g.ctx.funds.position;
    var target := Target(g.ctx.funds, price);
    var volume := target / g.st.gridCount as real;
    var even := Imbalance(target, position, price) >= 7.0;
    var st := g.st.(volume := volume, orderBalance := 0, fills := [], even := even, placed := g.ctx.funds);
    var r := g.(st := st);
    if !even then PlaceBuy(r, price, volume)
    else if target < position then PlaceSell(r, price, position - target)
    else PlaceBuy(r, price, target - position)
  }

  /** The strategy has order index on record. */
  predicate Known(st: Strategy, index: nat) {
    (st.buy.Some? && st.buy.value.index == index) || (st.sell.Some? && st.sell.value.index == index)
  }

  predicate IsBuy(st: Strategy, index: nat) {
    st.buy.Some? && st.buy.value.index == index
  }

  function FilledPrice(st: Strategy, index: nat): real
    requires Known(st, index)
  {
    if IsBuy(st, index) then st.buy.value.price else st.sell.value.price
  }

  /** The filled order leaves the records, and its fill enters the history. */
  function Recorded(g: Grid, index: nat): Grid
    requires Known(g.st, index) && index in g.ctx.orders
  {
    var o := g.ctx.orders[index];
    var st := if IsBuy(g.st, index) then g.st.(buy := None, orderBalance := g.st.orderBalance + 1)
      else g.st.(sell := None, orderBalance := g.st.orderBalance - 1);
    g.(st := st.(fills := st.fills + [GridFill(o.side, FilledPrice(g.st, index), o.quantity, g.ctx.funds)]))
  }

  /** on_order_filled, called while the filled order is still in the map. */
  function OnOrderFilled(g: Grid, index: nat): Grid
    requires Known(g.st, index) && index in g.ctx.orders
  {
    PlacePair(CancelAll(Recorded(g, index)), FilledPrice(g.st, index))
  }

  /** Half the width of the band: gridCount spacings. */
  function Bound(baseline: real, gridSpacing: real, gridCount: nat): real {
    baseline * gridSpacing * gridCount as real
  }

  predicate OutOfBand(st: Strategy, price: real) {
    var bound := Bound(st.baseline, st.gridSpacing, st.gridCount);
    price < st.baseline - bound || st.baseline + bound < price
  }

  /** The reaction to a close price, once the index has been updated. */
  function React(g: Grid, price: real): Grid
    requires price > 0.0 && g.st.gridCount > 0
  {
    if Value(g.st.rsi).NoValue? then g
    else if Low(g.st.rsi) then CancelAll(g)
    else if g.st.sell.None? && g.st.buy.None? then PlaceInitial(g.(st := g.st.(baseline := price)), price)
    else if OutOfBand(g.st, price) then PlaceInitial(CancelAll(g.(st := g.st.(baseline := price))), price)
    else g
  }

  /** GridStrategy::update. */
  function StrategyUpdate(g: Grid, c: Candle): Grid
    requires c.close > 0.0 && g.st.gridCount > 0
  {
    React(g.(st := g.st.(rsi := Push(g.st.rsi, c.close))), c.close)
  }

  // ---------- the context's loop over the map ----------

  /** The entry an iterator at or after key from stands on, below the bound. */
  function FirstKey(orders: map<nat, LimitOrder>, from: nat, bound: nat): (r: Option<nat>)
    ensures r.None? ==> forall k | k in orders :: !(from <= k < bound)
    ensures r.Some? ==> r.value in orders && from <= r.value < bound && forall k | k in orders :: !(from <= k < r.value)
    decreases bound - from
  {
    if from >= bound then None
    else if from in orders then Some(from)
    else FirstKey(orders, from + 1, bound)
  }

  /** The two views of the open orders agree: the map holds exactly the orders the strategy has on
      record, with the same side and price. */
  ghost predicate Agree(g: Grid) {
    && (forall k :: k in g.ctx.orders <==> Known(g.st, k))
    && (g.st.buy.Some? ==>
          var o := g.ctx.orders[g.st.buy.value.index];
          g.st.buy.value.index < g.ctx.next && o.side == Buy && o.price == g.st.buy.value.price)
    && (g.st.sell.Some? ==>
          var o := g.ctx.orders[g.st.sell.value.index];
          g.st.sell.value.index < g.ctx.next && o.side == Sell && o.price == g.st.sell.value.price)
    && (g.st.buy.Some? && g.st.sell.Some? ==> g.st.sell.value.index < g.st.buy.value.index)
  }

  predicate Executes(g: Grid, k: nat, c: Candle)
    requires k in g.ctx.orders
  {
    Reached(g.ctx.orders[k], c) && Affordable(g.ctx.funds, g.ctx.orders[k])
  }

  /** The account has settled order k; the strategy has not been told yet. */
  function Settled(g: Grid, k: nat): Grid
    requires k in g.ctx.orders
  {
    g.(ctx := g.ctx.(funds := Settle(g.ctx.funds, g.ctx.orders[k], g.ctx.commission)))
  }

  /** Settle, tell the strategy, and erase the entry the iterator stands on. */
  function FillOne(g: Grid, k: nat): Grid
    requires k in g.ctx.orders && Known(g.st, k)
  {
    Cancel(OnOrderFilled(Settled(g, k), k), k)
  }

  /** The callback is safe for the iterator: the entry it stands on survives, and every entry it
      inserts lies at or beyond the index counter of before. */
  lemma CallbackSafe(g: Grid, k: nat)
    requires Agree(g) && k in g.ctx.orders
    ensures Known(g.st, k)
    ensures k in OnOrderFilled(Settled(g, k), k).ctx.orders
    ensures forall j | j in OnOrderFilled(Settled(g, k), k).ctx.orders :: j == k || j >= g.ctx.next
    ensures OnOrderFilled(Settled(g, k), k).ctx.orders[k] == g.ctx.orders[k]
  {
  }

  lemma FillKeepsAgree(g: Grid, k: nat)
    requires Agree(g) && k in g.ctx.orders
    ensures Known(g.st, k) && Agree(FillOne(g, k))
    ensures FillOne(g, k).ctx.next == g.ctx.next + 2
    ensures forall j | j in FillOne(g, k).ctx.orders :: j >= g.ctx.next
  {
  }

  /** Order k has had its turn. */
  function Tried(g: Grid, k: nat, c: Candle): Grid
    requires k in g.ctx.orders && Known(g.st, k)
  {
    if Executes(g, k, c) then FillOne(g, k) else g
  }

  lemma TriedAgrees(g: Grid, k: nat, c: Candle)
    requires Agree(g) && k in g.ctx.orders
    ensures Known(g.st, k) && Agree(Tried(g, k, c))
  {
    FillKeepsAgree(g, k);
  }

  /** update_orders from the iterator position on. */
  ghost function Scan(g: Grid, from: nat, last: nat, c: Candle): Grid
    requires Agree(g)
    decreases last - from
  {
    match FirstKey(g.ctx.orders, from, last)
    case None => g
    case Some(k) =>
      TriedAgrees(g, k, c);
      Scan(Tried(g, k, c), k + 1, last, c)
  }

  ghost function UpdateOrders(g: Grid, c: Candle): Grid
    requires Agree(g)
  {
    Scan(g, 0, g.ctx.next, c)
  }
}
