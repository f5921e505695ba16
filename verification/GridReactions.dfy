/** When the grid's orders fill and when the grid is reopened, told in prices and amounts. */
module GridReactions {
  import opened Common
  import opened Numbers
  import opened SlidingRsi
  import opened GridModel
  import opened GridTheorems

  // ---------- the fills of one candle ----------

  /** An open order fills when its turn comes if and only if the candle comes to its price, the low down
      to a buy or the high up to a sell, and there is cash, or units, enough. */
  lemma ExecutesExactly(g: Grid, k: nat, c: Candle)
    requires k in g.ctx.orders
    ensures var o := g.ctx.orders[k];
      Executes(g, k, c) <==>
        match o.side
        case Buy => c.low <= o.price && o.quantity * o.price <= g.ctx.funds.balance
        case Sell => o.price <= c.high && o.quantity <= g.ctx.funds.position
  {
  }

  /** The account after a sell, and after a buy, of quantity q at price p. */
  predicate SoldTo(f: Funds, r: Funds, q: real, p: real, commission: real) {
    r.position == f.position - q && r.balance == f.balance + q * p * (1.0 - commission)
  }

  predicate BoughtTo(f: Funds, r: Funds, q: real, p: real, commission: real) {
    r.balance == f.balance - q * p && r.position == f.position + q * (1.0 - commission)
  }

  /** The history has gained exactly this fill, which the candle allowed. */
  predicate Gained(st: Strategy, r: Strategy, side: OrderSide, quantity: real, price: real) {
    && |r.fills| == |st.fills| + 1 && r.fills[..|st.fills|] == st.fills
    && var f := r.fills[|st.fills|]; f.side == side && f.quantity == quantity && f.price == price
  }

  /** The open sell comes first: it fills if the high comes up to its price and there are units enough. */
  lemma SellFills(g: Grid, c: Candle)
    requires Agree(g) && g.st.sell.Some?
    requires var o := g.ctx.orders[g.st.sell.value.index]; o.price <= c.high && o.quantity <= g.ctx.funds.position
    ensures var o, r := g.ctx.orders[g.st.sell.value.index], UpdateOrders(g, c);
      && Gained(g.st, r.st, Sell, o.quantity, o.price)
      && SoldTo(g.ctx.funds, r.ctx.funds, o.quantity, o.price, g.ctx.commission)
  {
    ScanIsOnce(g, c);
    FillOneIsFilling(g, g.st.sell.value.index);
  }

  /** No sell fills: none is open, the high stays below its price, or it is more than there is. */
  predicate SellStays(g: Grid, c: Candle)
    requires g.st.sell.Some? ==> g.st.sell.value.index in g.ctx.orders
  {
    g.st.sell.Some? ==>
      var o := g.ctx.orders[g.st.sell.value.index]; c.high < o.price || g.ctx.funds.position < o.quantity
  }

  /** Otherwise the open buy fills if the low comes down to its price and the cash is enough. */
  lemma BuyFills(g: Grid, c: Candle)
    requires Agree(g) && g.st.buy.Some? && SellStays(g, c)
    requires var o := g.ctx.orders[g.st.buy.value.index];
      c.low <= o.price && o.quantity * o.price <= g.ctx.funds.balance
    ensures var o, r := g.ctx.orders[g.st.buy.value.index], UpdateOrders(g, c);
      && Gained(g.st, r.st, Buy, o.quantity, o.price)
      && BoughtTo(g.ctx.funds, r.ctx.funds, o.quantity, o.price, g.ctx.commission)
  {
    ScanIsOnce(g, c);
    FillOneIsFilling(g, g.st.buy.value.index);
  }

  /** Otherwise nothing happens. */
  lemma NothingFills(g: Grid, c: Candle)
    requires Agree(g) && SellStays(g, c)
    requires g.st.buy.Some? ==> var o := g.ctx.orders[g.st.buy.value.index];
      o.price < c.low || g.ctx.funds.balance < o.quantity * o.price
    ensures UpdateOrders(g, c) == g
  {
    ScanIsOnce(g, c);
  }

  /** What a candle allows: a buy at or above its low, a sell at or below its high. */
  predicate Allows(c: Candle, f: GridFill) {
    if f.side == Buy then c.low <= f.price else f.price <= c.high
  }

  /** The fills of r are those of st, and at most one more, which the candle allowed. */
  predicate FillsAllowed(st: Strategy, r: Strategy, c: Candle) {
    r.fills == st.fills
    || (|r.fills| == |st.fills| + 1 && r.fills[..|st.fills|] == st.fills && Allows(c, r.fills[|st.fills|]))
  }

  lemma UpdateAllowed(g: Grid, c: Candle)
    requires Agree(g)
    ensures FillsAllowed(g.st, UpdateOrders(g, c).st, c)
  {
    ScanIsOnce(g, c);
    if k :| k in g.ctx.orders && Executes(g, k, c) && Once(g, c) == FillOne(g, k) {
      FillOneIsFilling(g, k);
    }
  }

  /** A candle that does not end in a new placement leaves the account where its fill left it. */
  lemma TickFunds(g: Grid, c: Candle)
    requires Consistent(g) && c.close > 0.0
    ensures Tick(g, c).ctx.funds == UpdateOrders(g, c).ctx.funds
    ensures Tick(g, c).st.fills == UpdateOrders(g, c).st.fills || Tick(g, c).st.fills == []
  {
    UpdateOrdersKeeps(g, c);
  }

  /** The same for a whole turn: the strategy's reaction does not touch the account. */
  lemma TickSettles(g: Grid, c: Candle)
    requires Consistent(g) && c.close > 0.0
    ensures var f, r := g.ctx.funds, Tick(g, c).ctx.funds;
      if !SellStays(g, c) then
        var o := g.ctx.orders[g.st.sell.value.index]; SoldTo(f, r, o.quantity, o.price, g.ctx.commission)
      else if g.st.buy.Some? && c.low <= g.ctx.orders[g.st.buy.value.index].price
        && g.ctx.orders[g.st.buy.value.index].quantity * g.ctx.orders[g.st.buy.value.index].price <= f.balance then
        var o := g.ctx.orders[g.st.buy.value.index]; BoughtTo(f, r, o.quantity, o.price, g.ctx.commission)
      else r == f
  {
    TickFunds(g, c);
    if !SellStays(g, c) {
      SellFills(g, c);
    } else if g.st.buy.Some? && c.low <= g.ctx.orders[g.st.buy.value.index].price
      && g.ctx.orders[g.st.buy.value.index].quantity * g.ctx.orders[g.st.buy.value.index].price <= g.ctx.funds.balance {
      BuyFills(g, c);
    } else {
      NothingFills(g, c);
    }
  }

  /** Every fill of the history has been allowed by one of the candles. */
  ghost predicate AllAllowed(fills: seq<GridFill>, candles: seq<Candle>) {
    forall j | 0 <= j < |fills| :: exists i :: 0 <= i < |candles| && Allows(candles[i], fills[j])
  }

  lemma TickAllowed(g: Grid, seen: seq<Candle>, c: Candle)
    requires Consistent(g) && c.close > 0.0 && AllAllowed(g.st.fills, seen)
    ensures AllAllowed(Tick(g, c).st.fills, seen + [c])
  {
    UpdateAllowed(g, c);
    TickFunds(g, c);
    var fills, all := UpdateOrders(g, c).st.fills, seen + [c];
    forall j | 0 <= j < |fills|
      ensures exists i :: 0 <= i < |all| && Allows(all[i], fills[j])
    {
      if j < |g.st.fills| {
        var i :| 0 <= i < |seen| && Allows(seen[i], g.st.fills[j]);
        assert all[i] == seen[i] && fills[j] == g.st.fills[j];
      } else {
        assert all[|seen|] == c;
      }
    }
  }

  /** In every backtest each fill since the latest placement was allowed by a candle of the stream. */
  lemma {:induction false} EveryFillAllowed(g: Grid, seen: seq<Candle>, candles: seq<Candle>)
    requires Consistent(g) && ClosePositive(candles) && AllAllowed(g.st.fills, seen)
    ensures AllAllowed(RunCandles(g, candles).st.fills, seen + candles)
    decreases |candles|
  {
    if candles == [] {
      assert seen + candles == seen;
    } else {
      var c := candles[0];
      TickKeeps(g, c);
      TickAllowed(g, seen, c);
      EveryFillAllowed(Tick(g, c), seen + [c], candles[1..]);
      assert seen + [c] + candles[1..] == seen + candles;
    }
  }

  // ---------- when the grid is reopened ----------

  /** The price lies within n spacings s, as parts of the baseline b, around it. */
  predicate Within(b: real, s: real, n: nat, price: real) {
    b * (1.0 - s * n as real) <= price <= b * (1.0 + s * n as real)
  }

  lemma BandInFull(b: real, s: real, n: nat)
    ensures b - b * s * n as real == b * (1.0 - s * n as real)
    ensures b + b * s * n as real == b * (1.0 + s * n as real)
  {
    var r := n as real;
    assert b * s * r == b * (s * r);
  }

  lemma InBandIsWithin(st: Strategy, price: real)
    ensures OutOfBand(st, price) <==> !Within(st.baseline, st.gridSpacing, st.gridCount, price)
  {
    BandInFull(st.baseline, st.gridSpacing, st.gridCount);
  }

  /** The window is full, and losses do not exceed four times the gains. */
  predicate Trades(r: Rsi) {
    |r.gains| == r.period && r.sumLoss <= 4.0 * r.sumGain
  }

  /** One order is open, and rests at the price that has become the baseline. */
  predicate Reopened(g: Grid, price: real) {
    g.st.baseline == price && g.st.fills == [] &&
    match (g.st.buy, g.st.sell)
    case (Some(o), None) => OnlyOrder(g.ctx, o, price)
    case (None, Some(o)) => OnlyOrder(g.ctx, o, price)
    case _ => false
  }

  predicate OnlyOrder(ctx: Context, o: OrderInfo, price: real) {
    o.price == price && ctx.orders.Keys == {o.index} && ctx.orders[o.index].price == price
  }

  predicate Open(st: Strategy) {
    st.buy.Some? || st.sell.Some?
  }

  lemma PlacementReopens(g: Grid, price: real)
    requires Clear(g, price)
    ensures Reopened(PlaceInitial(g, price), price)
  {
    PlaceInitialAgrees(g, price);
  }

  lemma ReactReopens(g: Grid, price: real)
    requires Consistent(g) && price > 0.0 && !Value(g.st.rsi).NoValue? && !Low(g.st.rsi)
    ensures !Open(g.st) || !Within(g.st.baseline, g.st.gridSpacing, g.st.gridCount, price) ==>
      Reopened(React(g, price), price)
    ensures Open(g.st) && Within(g.st.baseline, g.st.gridSpacing, g.st.gridCount, price) ==> React(g, price) == g
  {
    var moved := g.(st := g.st.(baseline := price));
    InBandIsWithin(g.st, price);
    if !Open(g.st) {
      assert g.ctx.orders == map[];
      PlacementReopens(moved, price);
    } else if OutOfBand(g.st, price) {
      CancelAllEmpties(moved);
      PlacementReopens(CancelAll(moved), price);
    }
  }

  lemma FillsKeepOpen(g: Grid, c: Candle)
    requires Consistent(g)
    ensures var u := UpdateOrders(g, c);
      && (Open(u.st) <==> Open(g.st)) && u.st.baseline == g.st.baseline && u.st.rsi == g.st.rsi && SameConfig(g, u)
  {
    UpdateOrdersKeeps(g, c);
    UpdateExtendsHistory(g, c);
    RsiUnchanged(g, c);
    ScanIsOnce(g, c);
  }

  /** With an index that has seen prices before, and trades: a candle reopens the grid at its close if
      and only if nothing was open or the close left the band; otherwise the baseline and what its fills
      have left open stay. */
  lemma TickReopensExactly(g: Grid, prices: seq<real>, c: Candle)
    requires Consistent(g) && Tracks(g.st.rsi, prices) && c.close > 0.0 && Trades(Tick(g, c).st.rsi)
    ensures var u, r := UpdateOrders(g, c), Tick(g, c);
      if !Open(g.st) || !Within(g.st.baseline, g.st.gridSpacing, g.st.gridCount, c.close) then Reopened(r, c.close)
      else r.ctx == u.ctx && r.st == u.st.(rsi := r.st.rsi) && r.st.baseline == g.st.baseline
  {
    var u := UpdateOrders(g, c);
    UpdateOrdersKeeps(g, c);
    FillsKeepOpen(g, c);
    TickPushes(g, c);
    PushTracks(g.st.rsi, prices, c.close);
    var rsi := Push(g.st.rsi, c.close);
    LowExactly(rsi, prices + [c.close]);
    RsiIrrelevant(u, rsi);
    ReactReopens(u.(st := u.st.(rsi := rsi)), c.close);
  }

  /** Until the window is full the strategy waits. */
  lemma TickWaits(g: Grid, c: Candle)
    requires Consistent(g) && c.close > 0.0 && |Tick(g, c).st.rsi.gains| != g.st.rsi.period
    ensures var u, r := UpdateOrders(g, c), Tick(g, c);
      r.ctx == u.ctx && r.st == u.st.(rsi := r.st.rsi)
  {
    UpdateOrdersKeeps(g, c);
    RsiUnchanged(g, c);
    TickPushes(g, c);
  }

  /** While an order is open the window of the index is full. */
  predicate OpenWhenFull(st: Strategy) {
    Open(st) ==> |st.rsi.gains| == st.rsi.period
  }

  lemma PushStaysFull(r: Rsi, price: real)
    requires |r.gains| == r.period
    ensures |Push(r, price).gains| == Push(r, price).period
  {
  }

  lemma BaselineWithin(b: real, s: real, n: nat)
    requires b > 0.0 && s >= 0.0
    ensures Within(b, s, n, b)
  {
    var width := s * n as real;
    ProductNonNegative(s, n as real);
    ProductNonNegative(b, width);
    assert b * (1.0 - width) == b - b * width && b * (1.0 + width) == b + b * width;
  }

  lemma ReactWithin(g: Grid, price: real)
    requires Consistent(g) && price > 0.0 && g.st.gridSpacing >= 0.0 && OpenWhenFull(g.st)
    ensures var r := React(g, price).st;
      OpenWhenFull(r) && (Open(r) ==> Within(r.baseline, r.gridSpacing, r.gridCount, price))
  {
    if Value(g.st.rsi).NoValue? {
    } else if Low(g.st.rsi) {
      CancelAllEmpties(g);
    } else {
      ReactReopens(g, price);
      ReactKeeps(g, price);
      ReactKeepsIndex(g, price);
      BaselineWithin(price, g.st.gridSpacing, g.st.gridCount);
    }
  }

  lemma ReactKeepsIndex(g: Grid, price: real)
    requires price > 0.0 && g.st.gridCount > 0
    ensures React(g, price).st.rsi == g.st.rsi
  {
  }

  lemma TickWithin(g: Grid, c: Candle)
    requires Consistent(g) && c.close > 0.0 && g.st.gridSpacing >= 0.0 && OpenWhenFull(g.st)
    ensures var r := Tick(g, c).st;
      OpenWhenFull(r) && (Open(r) ==> Within(r.baseline, r.gridSpacing, r.gridCount, c.close))
  {
    var u := UpdateOrders(g, c);
    var rsi := Push(g.st.rsi, c.close);
    UpdateOrdersKeeps(g, c);
    FillsKeepOpen(g, c);
    RsiIrrelevant(u, rsi);
    if Open(g.st) {
      PushStaysFull(g.st.rsi, c.close);
    }
    ReactWithin(u.(st := u.st.(rsi := rsi)), c.close);
  }

  lemma {:induction false} RunWithin(g: Grid, candles: seq<Candle>)
    requires Consistent(g) && ClosePositive(candles) && candles != [] && g.st.gridSpacing >= 0.0 && OpenWhenFull(g.st)
    ensures var r := RunCandles(g, candles).st;
      Open(r) ==> Within(r.baseline, r.gridSpacing, r.gridCount, candles[|candles| - 1].close)
    decreases |candles|
  {
    var c, rest := candles[0], candles[1..];
    TickKeeps(g, c);
    TickWithin(g, c);
    if rest != [] {
      RunWithin(Tick(g, c), rest);
      assert rest[|rest| - 1] == candles[|candles| - 1];
    }
  }

  /** In every backtest with positive closes and a non-negative spacing: while an order is open, the
      latest close lies within gridCount spacings around the baseline. */
  lemma EveryOpenGridWithin(funds: Funds, commission: real, gridCount: nat, gridSpacing: real, rsi: Rsi,
    candles: seq<Candle>)
    requires gridCount > 0 && gridSpacing >= 0.0 && ClosePositive(candles) && candles != []
    ensures Consistent(Start(funds, commission, gridCount, gridSpacing, rsi))
    ensures var st := RunCandles(Start(funds, commission, gridCount, gridSpacing, rsi), candles).st;
      st.buy.Some? || st.sell.Some? ==> Within(st.baseline, gridSpacing, gridCount, candles[|candles| - 1].close)
  {
    var start := Start(funds, commission, gridCount, gridSpacing, rsi);
    StartKeeps(funds, commission, gridCount, gridSpacing, rsi);
    RunKeeps(start, candles);
    RunWithin(start, candles);
  }
}
