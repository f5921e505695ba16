/** What the grid strategy and its context keep on every candle stream. */
module GridTheorems {
  import opened Common
  import opened Numbers
  import opened SlidingRsi
  import opened GridModel

  // ---------- one fill per candle ----------

  /** The reference: try the resting sell, then the resting buy; at most one of them fills. */
  ghost function Once(g: Grid, c: Candle): Grid
    requires Agree(g)
  {
    if g.st.sell.Some? && Executes(g, g.st.sell.value.index, c) then FillOne(g, g.st.sell.value.index)
    else if g.st.buy.Some? && Executes(g, g.st.buy.value.index, c) then FillOne(g, g.st.buy.value.index)
    else g
  }

  lemma ScanNothing(g: Grid, from: nat, last: nat, c: Candle)
    requires Agree(g) && forall k | k in g.ctx.orders :: !(from <= k < last)
    ensures Scan(g, from, last, c) == g
  {
  }

  lemma ScanAfterFill(g: Grid, k: nat, c: Candle)
    requires Agree(g) && k in g.ctx.orders
    ensures Known(g.st, k) && Agree(FillOne(g, k))
    ensures Scan(FillOne(g, k), k + 1, g.ctx.next, c) == FillOne(g, k)
  {
    FillKeepsAgree(g, k);
    ScanNothing(FillOne(g, k), k + 1, g.ctx.next, c);
  }

  lemma FirstKeyIs(orders: map<nat, LimitOrder>, from: nat, bound: nat, k: nat)
    requires k in orders && from <= k < bound
    requires forall j | j in orders :: !(from <= j < k)
    ensures FirstKey(orders, from, bound) == Some(k)
  {
  }

  /** From an iterator position below which only orders that do not execute lie. */
  lemma ScanBuy(g: Grid, from: nat, c: Candle)
    requires Agree(g) && (g.st.sell.Some? ==> g.st.sell.value.index < from)
    requires g.st.buy.Some? ==> from <= g.st.buy.value.index
    ensures Scan(g, from, g.ctx.next, c)
      == if g.st.buy.Some? && Executes(g, g.st.buy.value.index, c) then FillOne(g, g.st.buy.value.index) else g
  {
    if g.st.buy.Some? {
      var k := g.st.buy.value.index;
      FirstKeyIs(g.ctx.orders, from, g.ctx.next, k);
      if Executes(g, k, c) {
        ScanAfterFill(g, k, c);
      } else {
        ScanNothing(g, k + 1, g.ctx.next, c);
      }
    } else {
      ScanNothing(g, from, g.ctx.next, c);
    }
  }

  lemma ScanEmpty(g: Grid, c: Candle)
    requires Agree(g) && g.ctx.orders == map[]
    ensures UpdateOrders(g, c) == g
  {
    ScanNothing(g, 0, g.ctx.next, c);
  }

  /** The loop over the map, with its re-entrant callback, does what the reference does. */
  lemma ScanIsOnce(g: Grid, c: Candle)
    requires Agree(g)
    ensures UpdateOrders(g, c) == Once(g, c)
    ensures |Once(g, c).st.fills| <= |g.st.fills| + 1
  {
    if g.st.sell.Some? {
      var k := g.st.sell.value.index;
      FirstKeyIs(g.ctx.orders, 0, g.ctx.next, k);
      if Executes(g, k, c) {
        ScanAfterFill(g, k, c);
      } else {
        ScanBuy(g, k + 1, c);
      }
    } else {
      ScanBuy(g, 0, c);
    }
  }

  /** One step of the loop over the map. */
  lemma ScanStep(g: Grid, from: nat, last: nat, c: Candle, k: nat)
    requires Agree(g) && FirstKey(g.ctx.orders, from, last) == Some(k)
    requires Known(g.st, k) && Agree(Tried(g, k, c))
    ensures Scan(g, from, last, c) == Scan(Tried(g, k, c), k + 1, last, c)
  {
  }

  // ---------- the invariant ----------

  /** The configuration under which nothing becomes negative. */
  ghost predicate Config(g: Grid) {
    g.st.gridSpacing >= 0.0 && 0.0 <= g.ctx.commission <= 1.0
  }

  predicate SameConfig(g: Grid, r: Grid) {
    r.ctx.commission == g.ctx.commission && r.st.gridSpacing == g.st.gridSpacing && r.st.gridCount == g.st.gridCount
  }

  /** An open grid has been placed at a positive price. */
  predicate Based(st: Strategy) {
    st.buy.Some? || st.sell.Some? || st.fills != [] ==> st.baseline > 0.0
  }

  predicate Initial(st: Strategy) {
    st.fills == [] && (st.buy.Some? || st.sell.Some?)
  }

  function Last(fills: seq<GridFill>): GridFill
    requires fills != []
  {
    fills[|fills| - 1]
  }

  /** What rests: first one order at the baseline, later a pair one spacing around the last fill. */
  ghost predicate Resting(g: Grid)
    requires Agree(g)
  {
    var st := g.st;
    if st.fills == [] then
      && !(st.buy.Some? && st.sell.Some?)
      && (st.buy.Some? ==> st.buy.value.price == st.baseline)
      && (st.sell.Some? ==> st.sell.value.price == st.baseline)
    else
      && (st.buy.Some? <==> st.sell.Some?)
      && (st.buy.Some? ==>
            && st.buy.value.price == Last(st.fills).price - Spacing(st)
            && st.sell.value.price == Last(st.fills).price + Spacing(st)
            && g.ctx.orders[st.buy.value.index].quantity == st.volume
            && g.ctx.orders[st.sell.value.index].quantity == st.volume)
  }

  /** A fill of the pair that rests around the previous fill. */
  ghost predicate Follows(prev: GridFill, f: GridFill, spacing: real, volume: real, commission: real) {
    && f.quantity == volume
    && f.price == (if f.side == Buy then prev.price - spacing else prev.price + spacing)
    && f.funds == Settle(prev.funds, LimitOrder(f.side, f.quantity, f.price), commission)
  }

  ghost predicate FollowsAt(fills: seq<GridFill>, i: nat, spacing: real, volume: real, commission: real)
    requires 0 < i < |fills|
  {
    Follows(fills[i - 1], fills[i], spacing, volume, commission)
  }

  /** +1 for every buy, -1 for every sell. */
  function Signed(fills: seq<GridFill>): int {
    if fills == [] then 0 else Signed(fills[..|fills| - 1]) + if Last(fills).side == Buy then 1 else -1
  }

  /** The fills since the last initial placement form one chain, and the funds are those after the
      latest of them. */
  ghost predicate Chain(g: Grid) {
    var st := g.st;
    && st.orderBalance == Signed(st.fills)
    && (st.fills != [] ==>
          && st.fills[0].price == st.baseline
          && g.ctx.funds == Last(st.fills).funds
          && forall i | 1 <= i < |st.fills| :: FollowsAt(st.fills, i, Spacing(st), st.volume, g.ctx.commission))
  }

  /** Nothing is negative. */
  ghost predicate Solvent(g: Grid)
    requires Agree(g)
  {
    && g.ctx.funds.balance >= 0.0 && g.ctx.funds.position >= 0.0
    && (g.st.buy.Some? || g.st.sell.Some? || g.st.fills != [] ==> g.st.volume >= 0.0)
    && (g.st.buy.Some? ==> g.ctx.orders[g.st.buy.value.index].quantity >= 0.0)
    && (g.st.sell.Some? ==> g.ctx.orders[g.st.sell.value.index].quantity >= 0.0)
    && (forall i | 0 <= i < |g.st.fills| :: g.st.fills[i].price > 0.0 && g.st.fills[i].quantity >= 0.0)
  }

  function BoughtBy(f: GridFill): real {
    if f.side == Buy then f.quantity else 0.0
  }

  function SoldBy(f: GridFill): real {
    if f.side == Sell then Share(f.quantity, f.price) else 0.0
  }

  /** The minimum-trade branch buys one volume ahead of equal shares. */
  function Lead(st: Strategy): int {
    if st.even then 0 else 1
  }

  /** What that branch found beyond gridCount volumes and their worth; the other branch has evened
      it out. */
  function Slack(st: Strategy): Funds {
    var half := Share(st.gridCount as real, st.volume);
    if st.even then Funds(0.0, 0.0)
    else Funds(st.placed.balance - Share(half, st.baseline), st.placed.position - half)
  }

  /** What the first fill f after a placement leaves: equal shares of gridCount volumes, one volume
      further and with the slack in the minimum-trade branch, less the commission on that fill. */
  predicate SharesAfter(st: Strategy, f: GridFill, commission: real) {
    && f.funds.position
      == Share((st.gridCount + Lead(st)) as real, st.volume) + Slack(st).position - Share(commission, BoughtBy(f))
    && f.funds.balance
      == Share(Share((st.gridCount - Lead(st)) as real, st.volume), f.price) + Slack(st).balance
         - Share(commission, SoldBy(f))
  }

  /** The order of a placement: the missing difference, or one volume below the minimum trade. */
  predicate OpeningOrder(st: Strategy, side: OrderSide, quantity: real)
    requires st.baseline > 0.0
  {
    var gap := Target(st.placed, st.baseline) - st.placed.position;
    if !st.even then side == Buy && quantity == st.volume
    else if side == Buy then gap >= 0.0 && quantity == gap
    else gap < 0.0 && quantity == -gap
  }

  /** What is known of the funds a placement found. */
  predicate Placement(st: Strategy)
    requires st.baseline > 0.0 && st.gridCount > 0
  {
    var target := Target(st.placed, st.baseline);
    && st.volume == target / st.gridCount as real
    && (st.even <==> Imbalance(target, st.placed.position, st.baseline) >= 7.0)
  }

  /** The order of a placement until it has filled, and afterwards what its fill has left. */
  ghost predicate Opening(g: Grid)
    requires Agree(g)
  {
    var st := g.st;
    st.baseline > 0.0 && st.gridCount > 0 ==>
      && (st.buy.Some? || st.sell.Some? || st.fills != [] ==> Placement(st))
      && (Initial(st) ==>
            && g.ctx.funds == st.placed
            && (st.buy.Some? ==> OpeningOrder(st, Buy, g.ctx.orders[st.buy.value.index].quantity))
            && (st.sell.Some? ==> OpeningOrder(st, Sell, g.ctx.orders[st.sell.value.index].quantity)))
      && (st.fills != [] ==> SharesAfter(st, st.fills[0], g.ctx.commission))
  }

  /** What holds on every stream of candles that close above zero, for any funds, commission and
      spacing. */
  ghost predicate Consistent(g: Grid) {
    g.st.gridCount > 0 && Agree(g) && Resting(g) && Chain(g) && Opening(g) && Based(g.st)
  }

  /** What holds besides on sound candles, for non-negative funds and a sane configuration. */
  ghost predicate GridInv(g: Grid) {
    Consistent(g) && Config(g) && Solvent(g)
  }

  /** The entry a fill of order o leaves in the history. */
  function FillOf(g: Grid, o: LimitOrder): GridFill {
    GridFill(o.side, o.price, o.quantity, Settle(g.ctx.funds, o, g.ctx.commission))
  }

  /** The effect of a fill, field by field. */
  ghost predicate Filling(g: Grid, o: LimitOrder, r: Grid) {
    && r.ctx.funds == Settle(g.ctx.funds, o, g.ctx.commission)
    && r.ctx.commission == g.ctx.commission
    && r.st == g.st.(
         fills := g.st.fills + [FillOf(g, o)],
         orderBalance := g.st.orderBalance + (if o.side == Buy then 1 else -1),
         sell := Some(OrderInfo(g.ctx.next, o.price + Spacing(g.st))),
         buy := Some(OrderInfo(g.ctx.next + 1, o.price - Spacing(g.st))))
    && r.ctx.orders == map[
         g.ctx.next := LimitOrder(Sell, g.st.volume, o.price + Spacing(g.st)),
         g.ctx.next + 1 := LimitOrder(Buy, g.st.volume, o.price - Spacing(g.st))]
  }

  lemma FillOneIsFilling(g: Grid, k: nat)
    requires Agree(g) && k in g.ctx.orders
    ensures Known(g.st, k) && Agree(FillOne(g, k)) && Filling(g, g.ctx.orders[k], FillOne(g, k))
  {
    FillKeepsAgree(g, k);
    var r := FillOne(g, k);
    var n := g.ctx.next;
    assert r.st.sell.value.index == n && r.st.buy.value.index == n + 1;
    assert r.ctx.orders.Keys == {n, n + 1};
  }

  lemma FillKeepsResting(g: Grid, o: LimitOrder, r: Grid)
    requires Filling(g, o, r) && Agree(r)
    ensures Resting(r)
  {
  }

  /** The resting orders follow the last fill, or start a chain at the baseline. */
  lemma RestingFollows(g: Grid, k: nat)
    requires Agree(g) && Resting(g) && k in g.ctx.orders
    ensures var o := g.ctx.orders[k];
      && (g.st.fills == [] ==> o.price == g.st.baseline)
      && (g.st.fills != [] ==>
        o.quantity == g.st.volume
        && o.price == Last(g.st.fills).price + (if o.side == Buy then -Spacing(g.st) else Spacing(g.st)))
  {
    assert Known(g.st, k);
  }

  lemma FillKeepsChain(g: Grid, k: nat, r: Grid)
    requires Agree(g) && Resting(g) && Chain(g) && k in g.ctx.orders && Filling(g, g.ctx.orders[k], r)
    ensures Chain(r)
  {
    RestingFollows(g, k);
    assert r.st.fills[..|g.st.fills|] == g.st.fills;
    forall i | 1 <= i < |r.st.fills|
      ensures FollowsAt(r.st.fills, i, Spacing(r.st), r.st.volume, r.ctx.commission)
    {
      if i < |g.st.fills| {
        assert FollowsAt(g.st.fills, i, Spacing(g.st), g.st.volume, g.ctx.commission);
      }
    }
  }

  /** An affordable, reached order of non-negative size at a positive price leaves nothing negative. */
  lemma SettleKeepsSolvent(f: Funds, o: LimitOrder, commission: real)
    requires f.balance >= 0.0 && f.position >= 0.0 && Affordable(f, o)
    requires o.quantity >= 0.0 && o.price > 0.0 && 0.0 <= commission <= 1.0
    ensures Settle(f, o, commission).balance >= 0.0 && Settle(f, o, commission).position >= 0.0
  {
    ProductNonNegative(o.quantity, 1.0 - commission);
    ProductNonNegative(o.quantity, o.price);
    ProductNonNegative(Cost(o), 1.0 - commission);
  }

  /** A reached order trades at a positive price: a buy because the low is positive, a sell because
      it lies at or above the previous, positive, fill price. */
  lemma FillPricePositive(g: Grid, k: nat, c: Candle)
    requires Config(g) && Agree(g) && Resting(g) && Solvent(g) && Based(g.st) && k in g.ctx.orders
    requires Sound(c) && Reached(g.ctx.orders[k], c)
    ensures g.ctx.orders[k].price > 0.0 && g.ctx.orders[k].quantity >= 0.0 && g.st.volume >= 0.0
  {
    RestingFollows(g, k);
    ProductNonNegative(g.st.gridSpacing, g.st.baseline);
  }

  lemma FillKeepsSolvent(g: Grid, k: nat, c: Candle, r: Grid)
    requires Config(g) && Agree(g) && Resting(g) && Solvent(g) && Based(g.st) && k in g.ctx.orders
    requires Sound(c) && Executes(g, k, c) && Filling(g, g.ctx.orders[k], r) && Agree(r)
    ensures Solvent(r)
  {
    FillPricePositive(g, k, c);
    SettleKeepsSolvent(g.ctx.funds, g.ctx.orders[k], g.ctx.commission);
  }

  // ---------- what a placement leaves ----------

  /** Twice the target position is worth the whole portfolio. */
  lemma TargetWorth(f: Funds, price: real)
    requires price > 0.0
    ensures Target(f, price) * price * 2.0 == f.balance + f.position * price
    ensures f.balance >= 0.0 && f.position >= 0.0 ==> Target(f, price) >= 0.0
  {
    var total := f.balance + f.position * price;
    var q := total / price;
    assert q * price == total;
    if f.balance >= 0.0 && f.position >= 0.0 {
      ProductNonNegative(f.position, price);
      assert total >= 0.0;
    }
  }

  lemma SharesOf(target: real, n: real)
    requires n > 0.0
    ensures n * (target / n) == target
    ensures target >= 0.0 ==> target / n >= 0.0
  {
  }

  /** Settling the missing difference at the price equalises the two shares. */
  lemma EqualShares(f: Funds, o: LimitOrder, price: real, count: real, commission: real)
    requires price > 0.0 && o.price == price && count > 0.0
    requires o.quantity == if o.side == Buy then Target(f, price) - f.position else f.position - Target(f, price)
    ensures var half := Share(count, Target(f, price) / count);
      && Settle(f, o, commission).position
        == half - Share(commission, if o.side == Buy then o.quantity else 0.0)
      && Settle(f, o, commission).balance
        == Share(half, price) - Share(commission, if o.side == Sell then Share(o.quantity, price) else 0.0)
  {
    TargetWorth(f, price);
    var t := Target(f, price);
    SharesOf(t, count);
    if o.side == Buy {
      assert (t - f.position) * price == t * price - f.position * price;
      assert o.quantity * (1.0 - commission) == o.quantity - commission * o.quantity;
    } else {
      assert (f.position - t) * price == f.position * price - t * price;
      assert Cost(o) * (1.0 - commission) == Cost(o) - commission * Cost(o);
    }
  }

  /** Settling one volume at the price leaves one volume more and one less than half, with the slack. */
  lemma OneVolume(f: Funds, q: real, price: real, count: real, commission: real)
    ensures var r := Settle(f, LimitOrder(Buy, q, price), commission);
      && r.position == Share(count + 1.0, q) + (f.position - Share(count, q)) - Share(commission, q)
      && r.balance == Share(Share(count - 1.0, q), price) + (f.balance - Share(Share(count, q), price))
  {
    assert (count + 1.0) * q == count * q + q;
    assert (count - 1.0) * q == count * q - q;
    var half := count * q;
    assert (half - q) * price == half * price - q * price;
    assert q * (1.0 - commission) == q - commission * q;
  }

  lemma FirstFillShares(g: Grid, k: nat)
    requires Consistent(g) && Initial(g.st) && k in g.ctx.orders
    ensures SharesAfter(g.st, FillOf(g, g.ctx.orders[k]), g.ctx.commission)
  {
    var o, n := g.ctx.orders[k], g.st.gridCount as real;
    RestingFollows(g, k);
    assert Known(g.st, k);
    assert OpeningOrder(g.st, o.side, o.quantity);
    if g.st.even {
      EqualShares(g.ctx.funds, o, g.st.baseline, n, g.ctx.commission);
    } else {
      OneVolume(g.ctx.funds, o.quantity, g.st.baseline, n, g.ctx.commission);
      assert (g.st.gridCount + 1) as real == n + 1.0 && (g.st.gridCount - 1) as real == n - 1.0;
    }
  }

  lemma FillKeepsOpening(g: Grid, k: nat, r: Grid)
    requires Consistent(g) && k in g.ctx.orders && Filling(g, g.ctx.orders[k], r) && Agree(r)
    ensures Opening(r)
  {
    if g.st.fills == [] {
      FirstFillShares(g, k);
    }
    assert r.st.fills[0] == if g.st.fills == [] then FillOf(g, g.ctx.orders[k]) else g.st.fills[0];
  }

  // ---------- placing and cancelling ----------

  lemma CancelAllEmpties(g: Grid)
    requires Agree(g)
    ensures CancelAll(g) == g.(ctx := g.ctx.(orders := map[]), st := g.st.(buy := None, sell := None))
  {
    assert CancelAll(g).ctx.orders == map[];
  }

  /** The chain depends only on the fills, the grid parameters and the funds. */
  lemma SameChain(g: Grid, r: Grid)
    requires Chain(g)
    requires r.st.fills == g.st.fills && r.st.orderBalance == g.st.orderBalance && r.st.baseline == g.st.baseline
    requires r.st.gridSpacing == g.st.gridSpacing && r.st.volume == g.st.volume
    requires r.ctx.funds == g.ctx.funds && r.ctx.commission == g.ctx.commission
    ensures Chain(r)
  {
    forall i | 1 <= i < |r.st.fills|
      ensures FollowsAt(r.st.fills, i, Spacing(r.st), r.st.volume, r.ctx.commission)
    {
      assert FollowsAt(g.st.fills, i, Spacing(g.st), g.st.volume, g.ctx.commission);
    }
  }

  lemma CancelAllKeeps(g: Grid)
    requires Consistent(g)
    ensures Consistent(CancelAll(g)) && SameConfig(g, CancelAll(g))
    ensures Solvent(g) ==> Solvent(CancelAll(g))
  {
    CancelAllEmpties(g);
    SameChain(g, CancelAll(g));
  }

  /** Nothing is open, and the strategy has moved its baseline to the price. */
  ghost predicate Clear(g: Grid, price: real) {
    && price > 0.0 && g.st.gridCount > 0 && g.st.baseline == price
    && g.ctx.orders == map[] && g.st.buy.None? && g.st.sell.None?
  }

  lemma PlaceInitialAgrees(g: Grid, price: real)
    requires Clear(g, price)
    ensures var r := PlaceInitial(g, price);
      && Agree(r) && Resting(r) && Chain(r) && Initial(r.st)
      && SameConfig(g, r) && r.ctx.funds == g.ctx.funds && r.st.baseline == price
      && r.st.volume == Target(g.ctx.funds, price) / g.st.gridCount as real
  {
  }

  lemma PlaceInitialKeeps(g: Grid, price: real)
    requires Clear(g, price)
    ensures Consistent(PlaceInitial(g, price)) && SameConfig(g, PlaceInitial(g, price))
    ensures g.ctx.funds.balance >= 0.0 && g.ctx.funds.position >= 0.0 ==> Solvent(PlaceInitial(g, price))
  {
    PlaceInitialAgrees(g, price);
    TargetWorth(g.ctx.funds, price);
    SharesOf(Target(g.ctx.funds, price), g.st.gridCount as real);
  }

  /** The index takes no part in any of this. */
  lemma RsiIrrelevant(g: Grid, rsi: Rsi)
    requires Consistent(g)
    ensures Consistent(g.(st := g.st.(rsi := rsi)))
    ensures Solvent(g) ==> Solvent(g.(st := g.st.(rsi := rsi)))
  {
    SameChain(g, g.(st := g.st.(rsi := rsi)));
  }

  // ---------- every candle keeps the invariant ----------

  lemma FillKeeps(g: Grid, k: nat)
    requires Consistent(g) && k in g.ctx.orders
    ensures Known(g.st, k) && Consistent(FillOne(g, k)) && SameConfig(g, FillOne(g, k))
  {
    var r := FillOne(g, k);
    FillOneIsFilling(g, k);
    FillKeepsResting(g, g.ctx.orders[k], r);
    FillKeepsChain(g, k, r);
    FillKeepsOpening(g, k, r);
  }

  lemma FillKeepsInv(g: Grid, k: nat, c: Candle)
    requires GridInv(g) && Sound(c) && k in g.ctx.orders && Executes(g, k, c)
    ensures Known(g.st, k) && GridInv(FillOne(g, k))
  {
    FillKeeps(g, k);
    FillOneIsFilling(g, k);
    FillKeepsSolvent(g, k, c, FillOne(g, k));
  }

  lemma UpdateOrdersKeeps(g: Grid, c: Candle)
    requires Consistent(g)
    ensures Consistent(UpdateOrders(g, c)) && SameConfig(g, UpdateOrders(g, c))
    ensures GridInv(g) && Sound(c) ==> GridInv(UpdateOrders(g, c))
  {
    ScanIsOnce(g, c);
    if k :| k in g.ctx.orders && Executes(g, k, c) && Once(g, c) == FillOne(g, k) {
      FillKeeps(g, k);
      if GridInv(g) && Sound(c) {
        FillKeepsInv(g, k, c);
      }
    }
  }

  lemma ReactKeeps(g: Grid, price: real)
    requires Consistent(g) && price > 0.0
    ensures Consistent(React(g, price)) && SameConfig(g, React(g, price))
    ensures Solvent(g) ==> Solvent(React(g, price))
  {
    var moved := g.(st := g.st.(baseline := price));
    if Value(g.st.rsi).NoValue? {
    } else if Low(g.st.rsi) {
      CancelAllKeeps(g);
    } else if g.st.sell.None? && g.st.buy.None? {
      assert g.ctx.orders == map[];
      PlaceInitialKeeps(moved, price);
    } else if OutOfBand(g.st, price) {
      CancelAllEmpties(moved);
      PlaceInitialKeeps(CancelAll(moved), price);
    }
  }

  lemma StrategyUpdateKeeps(g: Grid, c: Candle)
    requires Consistent(g) && c.close > 0.0
    ensures Consistent(StrategyUpdate(g, c)) && SameConfig(g, StrategyUpdate(g, c))
    ensures Solvent(g) ==> Solvent(StrategyUpdate(g, c))
  {
    RsiIrrelevant(g, Push(g.st.rsi, c.close));
    ReactKeeps(g.(st := g.st.(rsi := Push(g.st.rsi, c.close))), c.close);
  }

  /** One turn of the backtest: the context fills, then the strategy reacts to the candle. */
  ghost function Tick(g: Grid, c: Candle): Grid
    requires Consistent(g) && c.close > 0.0
  {
    UpdateOrdersKeeps(g, c);
    StrategyUpdate(UpdateOrders(g, c), c)
  }

  lemma TickKeeps(g: Grid, c: Candle)
    requires Consistent(g) && c.close > 0.0
    ensures Consistent(Tick(g, c)) && SameConfig(g, Tick(g, c))
    ensures GridInv(g) && Sound(c) ==> GridInv(Tick(g, c))
  {
    UpdateOrdersKeeps(g, c);
    StrategyUpdateKeeps(UpdateOrders(g, c), c);
  }

  predicate ClosePositive(candles: seq<Candle>) {
    forall i | 0 <= i < |candles| :: candles[i].close > 0.0
  }

  predicate AllSound(candles: seq<Candle>) {
    forall i | 0 <= i < |candles| :: Sound(candles[i])
  }

  /** BacktestContext::run over a stream of candles. */
  ghost function RunCandles(g: Grid, candles: seq<Candle>): Grid
    requires Consistent(g) && ClosePositive(candles)
    decreases |candles|
  {
    if candles == [] then g else
      TickKeeps(g, candles[0]);
      RunCandles(Tick(g, candles[0]), candles[1..])
  }

  lemma RunFirst(g: Grid, c: Candle, rest: seq<Candle>)
    requires Consistent(g) && c.close > 0.0 && ClosePositive(rest)
    ensures Consistent(Tick(g, c)) && RunCandles(g, [c] + rest) == RunCandles(Tick(g, c), rest)
  {
    TickKeeps(g, c);
    assert ([c] + rest)[1..] == rest;
  }

  function Start(funds: Funds, commission: real, gridCount: nat, gridSpacing: real, rsi: Rsi): Grid {
    Grid(Context(funds, map[], 0, commission),
      Strategy(gridCount, gridSpacing, 0.0, 0.0, None, None, 0, rsi, [], false, Funds(0.0, 0.0)))
  }

  /** On every candle stream the two views of the orders agree and the fills form one chain; and
      if the candles are sound, neither balance nor position is ever negative. */
  lemma {:induction false} RunKeeps(g: Grid, candles: seq<Candle>)
    requires Consistent(g) && ClosePositive(candles)
    ensures Consistent(RunCandles(g, candles)) && SameConfig(g, RunCandles(g, candles))
    ensures GridInv(g) && AllSound(candles) ==> GridInv(RunCandles(g, candles))
    decreases |candles|
  {
    if candles != [] {
      TickKeeps(g, candles[0]);
      RunKeeps(Tick(g, candles[0]), candles[1..]);
    }
  }

  predicate Sane(funds: Funds, commission: real, gridSpacing: real) {
    funds.balance >= 0.0 && funds.position >= 0.0 && 0.0 <= commission <= 1.0 && gridSpacing >= 0.0
  }

  lemma StartKeeps(funds: Funds, commission: real, gridCount: nat, gridSpacing: real, rsi: Rsi)
    requires gridCount > 0
    ensures var g := Start(funds, commission, gridCount, gridSpacing, rsi);
      && Consistent(g)
      && (Sane(funds, commission, gridSpacing) ==> GridInv(g))
  {
  }

  /** r carries on the fill history of st under the same grid parameters. */
  predicate CarriesOn(st: Strategy, r: Strategy) {
    && st.fills <= r.fills
    && r.baseline == st.baseline && r.volume == st.volume
    && r.gridSpacing == st.gridSpacing && r.gridCount == st.gridCount && r.even == st.even && r.placed == st.placed
  }

  lemma ReactExtendsHistory(g: Grid, price: real)
    requires Consistent(g) && price > 0.0
    ensures var r := React(g, price).st;
      Initial(r) || (CarriesOn(g.st, r) && |r.fills| == |g.st.fills|)
  {
    var moved := g.(st := g.st.(baseline := price));
    if Value(g.st.rsi).NoValue? || Low(g.st.rsi) {
    } else if g.st.sell.None? && g.st.buy.None? {
      assert g.ctx.orders == map[];
      PlaceInitialAgrees(moved, price);
    } else if OutOfBand(g.st, price) {
      CancelAllEmpties(moved);
      PlaceInitialAgrees(CancelAll(moved), price);
    }
  }

  /** A candle either ends in a new placement or extends the fill history by at most one fill, with
      the same baseline, volume and spacing: the identities on the history run on until then. */
  lemma TickExtendsHistory(g: Grid, c: Candle)
    requires Consistent(g) && c.close > 0.0
    ensures var r := Tick(g, c).st;
      Initial(r) || (CarriesOn(g.st, r) && |r.fills| <= |g.st.fills| + 1)
  {
    UpdateExtendsHistory(g, c);
    UpdateOrdersKeeps(g, c);
    var u := UpdateOrders(g, c);
    var pushed := u.(st := u.st.(rsi := Push(u.st.rsi, c.close)));
    RsiIrrelevant(u, Push(u.st.rsi, c.close));
    ReactExtendsHistory(pushed, c.close);
    assert Tick(g, c) == React(pushed, c.close);
  }

  lemma UpdateExtendsHistory(g: Grid, c: Candle)
    requires Agree(g)
    ensures var r := UpdateOrders(g, c).st; CarriesOn(g.st, r) && |r.fills| <= |g.st.fills| + 1
  {
    ScanIsOnce(g, c);
    if g.st.sell.Some? && Executes(g, g.st.sell.value.index, c) {
      FillOneIsFilling(g, g.st.sell.value.index);
    } else if g.st.buy.Some? && Executes(g, g.st.buy.value.index, c) {
      FillOneIsFilling(g, g.st.buy.value.index);
    }
  }

  function Closes(candles: seq<Candle>): seq<real> {
    if candles == [] then [] else [candles[0].close] + Closes(candles[1..])
  }

  lemma StrategyPushes(g: Grid, c: Candle)
    requires c.close > 0.0 && g.st.gridCount > 0
    ensures StrategyUpdate(g, c).st.rsi == Push(g.st.rsi, c.close)
  {
  }

  lemma TickPushes(g: Grid, c: Candle)
    requires Consistent(g) && c.close > 0.0
    ensures Tick(g, c).st.rsi == Push(g.st.rsi, c.close)
  {
    UpdateOrdersKeeps(g, c);
    RsiUnchanged(g, c);
    StrategyPushes(UpdateOrders(g, c), c);
  }

  lemma WithdrawnWhenLow(g: Grid, c: Candle)
    requires Consistent(g) && c.close > 0.0 && Low(Tick(g, c).st.rsi)
    ensures Tick(g, c).ctx.orders == map[] && Tick(g, c).st.buy.None? && Tick(g, c).st.sell.None?
  {
    TickPushes(g, c);
    UpdateOrdersKeeps(g, c);
    var u := UpdateOrders(g, c);
    var r := u.(st := u.st.(rsi := Push(u.st.rsi, c.close)));
    RsiUnchanged(g, c);
    CancelAllEmpties(r);
  }

  /** Over the window of the latest period moves, losses exceed four times the gains. */
  predicate Falling(period: nat, prices: seq<real>) {
    var xs := Recent(period, prices);
    |xs| == period + 1 && 4.0 * Total(UpMoves(xs)) < Total(DownMoves(xs))
  }

  /** The prices of the window never rise, and end lower than they began. */
  predicate OnlyFalls(xs: seq<real>) {
    xs != [] && (forall i | 0 <= i < |xs| - 1 :: xs[i + 1] <= xs[i]) && xs[|xs| - 1] < xs[0]
  }

  lemma OnlyFallsIsFalling(period: nat, prices: seq<real>)
    requires |prices| > period && OnlyFalls(prices[|prices| - 1 - period..])
    ensures Falling(period, prices)
  {
    assert Recent(period, prices) == prices[|prices| - 1 - period..];
    FallingTotals(prices[|prices| - 1 - period..]);
  }

  lemma {:induction false} ClosesAre(candles: seq<Candle>, closes: seq<real>)
    requires |closes| == |candles| && forall i | 0 <= i < |candles| :: closes[i] == candles[i].close
    ensures Closes(candles) == closes
  {
    if candles != [] {
      ClosesAre(candles[1..], closes[1..]);
    }
  }

  lemma FallingIsLow(r: Rsi, prices: seq<real>)
    requires Tracks(r, prices)
    ensures Falling(r.period, prices) <==> Low(r)
  {
    LowExactly(r, prices);
  }

  lemma TickTracks(g: Grid, prices: seq<real>, c: Candle)
    requires Consistent(g) && Tracks(g.st.rsi, prices) && c.close > 0.0
    ensures Consistent(Tick(g, c)) && Tick(g, c).st.rsi.period == g.st.rsi.period
    ensures Tracks(Tick(g, c).st.rsi, prices + [c.close])
    ensures Falling(g.st.rsi.period, prices + [c.close]) ==> Tick(g, c).ctx.orders == map[]
  {
    TickKeeps(g, c);
    TickPushes(g, c);
    PushTracks(g.st.rsi, prices, c.close);
    FallingIsLow(Tick(g, c).st.rsi, prices + [c.close]);
    if Low(Tick(g, c).st.rsi) {
      WithdrawnWhenLow(g, c);
    }
  }

  lemma ClosesSplit(prices: seq<real>, candles: seq<Candle>)
    requires candles != []
    ensures prices + Closes(candles) == prices + [candles[0].close] + Closes(candles[1..])
    ensures candles[1..] == [] ==> prices + Closes(candles) == prices + [candles[0].close]
  {
    var seen := prices + [candles[0].close];
    assert prices + Closes(candles) == seen + Closes(candles[1..]);
    assert seen + [] == seen;
  }

  /** After any stream of candles, with prices the closes the index has seen before it: no order is
      open if the latest moves of the whole price history are falling. */
  lemma {:induction false} WithdrawnWhenFalling(g: Grid, prices: seq<real>, candles: seq<Candle>)
    requires Consistent(g) && Tracks(g.st.rsi, prices) && candles != [] && ClosePositive(candles)
    ensures Falling(g.st.rsi.period, prices + Closes(candles)) ==> RunCandles(g, candles).ctx.orders == map[]
    decreases |candles|
  {
    TickTracks(g, prices, candles[0]);
    ClosesSplit(prices, candles);
    if candles[1..] != [] {
      WithdrawnWhenFalling(Tick(g, candles[0]), prices + [candles[0].close], candles[1..]);
    }
  }

  /** Told in closes alone: after any stream, no order is open if the latest period + 1 closes never
      rise and end lower than they began. */
  lemma WithdrawnAfterFall(g: Grid, prices: seq<real>, candles: seq<Candle>, closes: seq<real>)
    requires Consistent(g) && Tracks(g.st.rsi, prices) && candles != [] && ClosePositive(candles)
    requires |closes| == |candles| && forall i | 0 <= i < |candles| :: closes[i] == candles[i].close
    requires var all, p := prices + closes, g.st.rsi.period; |all| > p && OnlyFalls(all[|all| - 1 - p..])
    ensures RunCandles(g, candles).ctx.orders == map[]
  {
    ClosesAre(candles, closes);
    OnlyFallsIsFalling(g.st.rsi.period, prices + closes);
    WithdrawnWhenFalling(g, prices, candles);
  }

  lemma RsiUnchanged(g: Grid, c: Candle)
    requires Agree(g)
    ensures UpdateOrders(g, c).st.rsi == g.st.rsi
  {
    ScanIsOnce(g, c);
  }

  lemma AtMostTwoOpen(g: Grid)
    requires Agree(g)
    ensures |g.ctx.orders| <= 2
  {
    var buys: set<nat> := if g.st.buy.Some? then {g.st.buy.value.index} else {};
    var sells: set<nat> := if g.st.sell.Some? then {g.st.sell.value.index} else {};
    assert g.ctx.orders.Keys == buys + sells;
    assert |buys + sells| <= |buys| + |sells|;
    assert |g.ctx.orders| == |g.ctx.orders.Keys|;
  }

  /** Every backtest with positive closes: at most two open orders, and the strategy's records match
      the context's map. With sound candles, non-negative funds and spacing and a commission of at
      most the whole, balance and position are never negative. */
  lemma EveryBacktest(funds: Funds, commission: real, gridCount: nat, gridSpacing: real, rsi: Rsi, candles: seq<Candle>)
    requires gridCount > 0 && ClosePositive(candles)
    ensures Consistent(Start(funds, commission, gridCount, gridSpacing, rsi))
    ensures var g := RunCandles(Start(funds, commission, gridCount, gridSpacing, rsi), candles);
      && Agree(g) && |g.ctx.orders| <= 2
      && (Sane(funds, commission, gridSpacing) && AllSound(candles) ==>
            g.ctx.funds.balance >= 0.0 && g.ctx.funds.position >= 0.0)
  {
    StartKeeps(funds, commission, gridCount, gridSpacing, rsi);
    RunKeeps(Start(funds, commission, gridCount, gridSpacing, rsi), candles);
    AtMostTwoOpen(RunCandles(Start(funds, commission, gridCount, gridSpacing, rsi), candles));
  }
}
