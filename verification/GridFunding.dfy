/** When the funds suffice for the grid's orders: exact conditions in terms of what the placement found
    and of the fills since, for both kinds of placement and any commission. */
module GridFunding {
  import opened Common
  import opened Numbers
  import opened SlidingRsi
  import opened GridModel
  import opened GridTheorems
  import opened GridProfit

  // ---------- the funds in terms of the placement ----------

  lemma {:induction false} TotalsSplit(fills: seq<GridFill>)
    requires fills != []
    ensures Bought(fills) == BoughtBy(fills[0]) + Bought(fills[1..])
    ensures Sold(fills) == SoldBy(fills[0]) + Sold(fills[1..])
  {
    if |fills| > 1 {
      TotalsSplit(fills[..|fills| - 1]);
      TailOfFront(fills);
    }
  }

  /** The placement has been followed by its first fill. */
  ghost predicate Opened(g: Grid) {
    Chain(g) && g.st.fills != [] && SharesAfter(g.st, g.st.fills[0], g.ctx.commission)
  }

  lemma GridIsOpened(g: Grid)
    requires Consistent(g) && g.st.fills != []
    ensures Opened(g)
  {
  }

  lemma Split(a: real, whole: real, x: real, y: real)
    requires whole == x + y
    ensures Share(a, whole) == Share(a, x) + Share(a, y)
  {
    Distribute(a, x, y);
  }

  /** Units bought since the placement, in counts: the first order's, and one volume for each later
      buy. */
  function UnitsBought(st: Strategy): real
    requires st.fills != []
  {
    BoughtBy(st.fills[0]) + Share(st.volume, Buys(st.fills[1..]) as real)
  }

  lemma BoughtInUnits(g: Grid)
    requires Chain(g) && g.st.fills != []
    ensures Bought(g.st.fills) == UnitsBought(g.st)
  {
    TotalsSplit(g.st.fills);
    ChainOf(g);
    ChainBought(g.st.fills, Spacing(g.st), g.st.volume, g.ctx.commission);
  }

  /** The position in terms of everything bought since the placement. */
  lemma OpenedPosition(g: Grid)
    requires Opened(g)
    ensures g.ctx.funds.position == Share((g.st.gridCount + Lead(g.st)) as real, g.st.volume) + Slack(g.st).position
      + Share(g.st.volume, Net(g.st.fills) as real) - Share(g.ctx.commission, Bought(g.st.fills))
  {
    PositionByBought(g);
    TotalsSplit(g.st.fills);
    Split(g.ctx.commission, Bought(g.st.fills), BoughtBy(g.st.fills[0]), Bought(g.st.fills[1..]));
  }

  /** The balance in terms of everything sold since the placement. */
  lemma OpenedBalance(g: Grid)
    requires Opened(g)
    ensures g.ctx.funds.balance
      == Share(Share((g.st.gridCount - Lead(g.st)) as real, g.st.volume), g.st.baseline) + Slack(g.st).balance
         + Ladder(g.st.volume, g.st.baseline, Spacing(g.st), Net(g.st.fills), Sells(g.st.fills[1..]))
         - Share(g.ctx.commission, Sold(g.st.fills))
  {
    ProfitIdentity(g);
    TotalsSplit(g.st.fills);
    Split(g.ctx.commission, Sold(g.st.fills), SoldBy(g.st.fills[0]), Sold(g.st.fills[1..]));
  }

  /** In the minimum-trade branch the slack is half the gap between cash and position value, on both
      sides, and worth less than the minimum trade. */
  lemma SlackOfPlacement(st: Strategy)
    requires st.baseline > 0.0 && st.gridCount > 0 && Placement(st) && !st.even
    ensures 2.0 * Slack(st).balance == st.placed.balance - st.placed.position * st.baseline
    ensures Slack(st).balance == -(Slack(st).position * st.baseline)
    ensures -7.0 < Slack(st).balance < 7.0
  {
    var t, x, p := Target(st.placed, st.baseline), st.placed.position, st.baseline;
    TargetWorth(st.placed, p);
    SharesOf(t, st.gridCount as real);
    assert (x - t) * p == x * p - t * p;
    assert (t - x) * p == t * p - x * p;
  }

  // ---------- the order of the placement ----------

  /** When the order of the placement passes the funds check. */
  predicate OpeningFunded(st: Strategy) {
    if st.even then st.volume >= 0.0
    else Share(Share((st.gridCount - 1) as real, st.volume), st.baseline) + Slack(st).balance >= 0.0
  }

  lemma PositiveQuotient(t: real, n: real)
    requires n > 0.0
    ensures t / n >= 0.0 <==> t >= 0.0
  {
    var q := t / n;
    assert q * n == t;
  }

  lemma PositiveFactor(t: real, p: real)
    requires p > 0.0
    ensures t * p >= 0.0 <==> t >= 0.0
  {
  }

  /** Half of what there is can be paid for unless it is negative. */
  lemma MissingAffordable(f: Funds, o: LimitOrder)
    requires o.side == Buy && o.price > 0.0 && o.quantity == Target(f, o.price) - f.position
    ensures Affordable(f, o) <==> Target(f, o.price) >= 0.0
  {
    var t := Target(f, o.price);
    TargetWorth(f, o.price);
    PositiveFactor(t, o.price);
    assert (t - f.position) * o.price == t * o.price - f.position * o.price;
  }

  lemma OneVolumeAffordable(f: Funds, q: real, price: real, n: real)
    ensures Affordable(f, LimitOrder(Buy, q, price))
      <==> Share(Share(n - 1.0, q), price) + (f.balance - Share(Share(n, q), price)) >= 0.0
  {
    var half := n * q;
    assert (n - 1.0) * q == half - q;
    assert (half - q) * price == half * price - q * price;
  }

  /** The order of a placement, as it rests. */
  lemma InitialOrder(g: Grid, k: nat)
    requires Consistent(g) && Initial(g.st) && k in g.ctx.orders
    ensures Known(g.st, k) && g.ctx.orders[k].price == g.st.baseline > 0.0 && g.ctx.funds == g.st.placed
    ensures Placement(g.st) && OpeningOrder(g.st, g.ctx.orders[k].side, g.ctx.orders[k].quantity)
  {
    RestingFollows(g, k);
    assert Known(g.st, k);
  }

  lemma InitialFundedExactly(g: Grid, k: nat)
    requires Consistent(g) && Initial(g.st) && k in g.ctx.orders
    ensures Affordable(g.ctx.funds, g.ctx.orders[k]) <==> OpeningFunded(g.st)
  {
    var o, n := g.ctx.orders[k], g.st.gridCount as real;
    InitialOrder(g, k);
    if !g.st.even {
      OneVolumeAffordable(g.ctx.funds, o.quantity, o.price, n);
      assert (g.st.gridCount - 1) as real == n - 1.0;
    } else {
      PositiveQuotient(Target(g.ctx.funds, o.price), n);
      if o.side == Buy {
        MissingAffordable(g.ctx.funds, o);
      }
    }
  }

  lemma EqualWorth(st: Strategy, f: GridFill)
    requires st.even && SharesAfter(st, f, 0.0)
    ensures f.funds.balance == f.funds.position * f.price
  {
    assert Share(0.0, BoughtBy(f)) == 0.0 && Share(0.0, SoldBy(f)) == 0.0;
  }

  /** The order of an equal-shares placement is always affordable, whatever the commission, and without
      commission its fill leaves a balance equal to the value of the position. That of a minimum-trade
      placement is affordable exactly when the other volumes' cash and the slack are not negative. */
  lemma InitialFunded(g: Grid, k: nat)
    requires GridInv(g) && Initial(g.st) && k in g.ctx.orders
    ensures Known(g.st, k)
    ensures g.st.even ==> Affordable(g.ctx.funds, g.ctx.orders[k])
    ensures g.st.even && g.ctx.commission == 0.0 ==>
      var f := FillOne(g, k).ctx.funds; f.balance == f.position * g.st.baseline
    ensures !g.st.even ==> (Affordable(g.ctx.funds, g.ctx.orders[k]) <==>
      Share(Share((g.st.gridCount - 1) as real, g.st.volume), g.st.baseline) + Slack(g.st).balance >= 0.0)
  {
    InitialOrder(g, k);
    InitialFundedExactly(g, k);
    FirstFillShares(g, k);
    FillOneIsFilling(g, k);
    if g.st.even && g.ctx.commission == 0.0 {
      EqualWorth(g.st, FillOf(g, g.ctx.orders[k]));
    }
  }

  // ---------- the resting pair ----------

  lemma SellArithmetic(n: real, q: real, k: real, slack: real, taken: real, position: real)
    requires position == Share(n, q) + slack + Share(q, k) - taken
    ensures position >= q <==> Share(q, n + k - 1.0) + slack >= taken
  {
    assert q * (n + k - 1.0) == n * q + q * k - q;
  }

  /** The rungs left to sell, and the slack, cover the commission on everything bought. */
  predicate SellFunded(st: Strategy, commission: real)
    requires st.fills != []
  {
    Share(st.volume, (st.gridCount + Lead(st) + Net(st.fills) - 1) as real) + Slack(st).position
      >= Share(commission, UnitsBought(st))
  }

  /** Since a placement of either kind, the resting sell passes the funds check exactly then. */
  lemma SellFundedExactly(g: Grid)
    requires Agree(g) && Resting(g) && Opened(g) && g.st.sell.Some?
    ensures Affordable(g.ctx.funds, g.ctx.orders[g.st.sell.value.index]) <==> SellFunded(g.st, g.ctx.commission)
  {
    assert g.ctx.orders[g.st.sell.value.index].quantity == g.st.volume;
    OpenedPosition(g);
    BoughtInUnits(g);
    var n, k := g.st.gridCount + Lead(g.st), Net(g.st.fills);
    assert (n + k - 1) as real == n as real + k as real - 1.0;
    SellArithmetic(n as real, g.st.volume, k as real, Slack(g.st).position,
      Share(g.ctx.commission, Bought(g.st.fills)), g.ctx.funds.position);
  }

  /** What the cash would be, before commission, on rung k + 1. */
  function Reserve(q: real, price: real, spacing: real, n: real, k: int, sells: nat): real {
    Share(q, Share(price, n - (k + 1) as real) + Share(spacing, (Triangle(k + 1) + sells) as real))
  }

  lemma ReserveArithmetic(q: real, price: real, spacing: real, n: real, k: int, sells: nat, at: real)
    requires at == price - spacing * (k as real) - spacing
    ensures Share(Share(n, q), price) + Ladder(q, price, spacing, k, sells) - q * at
      == Reserve(q, price, spacing, n, k, sells)
  {
    BuyStep(q, price, spacing, k, sells, at);
    var x := (k + 1) as real;
    var t := spacing * ((Triangle(k + 1) + sells) as real);
    assert price * (n - x) == price * n - price * x;
    assert q * (price * n - price * x + t) == q * (price * n) + q * (t - price * x);
    assert q * (price * n) == n * q * price;
  }

  /** The cash left on the next rung, and the slack, cover the commission on everything sold. */
  predicate BuyFunded(st: Strategy, spacing: real, commission: real)
    requires st.fills != []
  {
    Reserve(st.volume, st.baseline, spacing, (st.gridCount - Lead(st)) as real, Net(st.fills), Sells(st.fills[1..]))
      + Slack(st).balance >= Share(commission, Sold(st.fills))
  }

  /** Since a placement of either kind, the resting buy passes the funds check exactly then. */
  lemma BuyFundedExactly(g: Grid)
    requires Agree(g) && Resting(g) && Opened(g) && g.st.buy.Some?
    ensures Affordable(g.ctx.funds, g.ctx.orders[g.st.buy.value.index])
      <==> BuyFunded(g.st, Spacing(g.st), g.ctx.commission)
  {
    var o := g.ctx.orders[g.st.buy.value.index];
    assert o.quantity == g.st.volume && o.price == Last(g.st.fills).price - Spacing(g.st);
    BuyCost(g, o);
    OpenedBalance(g);
  }

  lemma BuyCost(g: Grid, o: LimitOrder)
    requires Chain(g) && g.st.fills != [] && o.quantity == g.st.volume
      && o.price == Last(g.st.fills).price - Spacing(g.st)
    ensures var n, k, sells := (g.st.gridCount - Lead(g.st)) as real, Net(g.st.fills), Sells(g.st.fills[1..]);
      Share(Share(n, g.st.volume), g.st.baseline) + Ladder(g.st.volume, g.st.baseline, Spacing(g.st), k,
        sells) - Cost(o)
        == Reserve(g.st.volume, g.st.baseline, Spacing(g.st), n, k, sells)
  {
    var fills := g.st.fills;
    FillOnLattice(g, |fills| - 1);
    assert fills[..|fills| - 1 + 1] == fills;
    CostOnLattice(o, g.st.volume, g.st.baseline, Spacing(g.st), (g.st.gridCount - Lead(g.st)) as real, Net(fills),
      Sells(fills[1..]));
  }

  lemma CostOnLattice(o: LimitOrder, q: real, price: real, spacing: real, n: real, k: int, sells: nat)
    requires o.quantity == q && o.price == price - Share(spacing, k as real) - spacing
    ensures Share(Share(n, q), price) + Ladder(q, price, spacing, k, sells) - Cost(o)
      == Reserve(q, price, spacing, n, k, sells)
  {
    ReserveArithmetic(q, price, spacing, n, k, sells, o.price);
  }

  lemma ReserveNonNegative(q: real, price: real, spacing: real, n: real, k: int, sells: nat)
    requires q >= 0.0 && price >= 0.0 && spacing >= 0.0 && (k + 1) as real <= n
    ensures Reserve(q, price, spacing, n, k, sells) >= 0.0
  {
    TriangleClosed(k + 1);
    ProductNonNegative(price, n - (k + 1) as real);
    ProductNonNegative(spacing, (Triangle(k + 1) + sells) as real);
    ProductNonNegative(q, price * (n - (k + 1) as real) + spacing * ((Triangle(k + 1) + sells) as real));
  }

  // ---------- every order of every backtest ----------

  /** When an open order passes the funds check. */
  predicate Funded(st: Strategy, side: OrderSide, spacing: real, commission: real) {
    if st.fills == [] then OpeningFunded(st)
    else if side == Buy then BuyFunded(st, spacing, commission)
    else SellFunded(st, commission)
  }

  lemma FundedExactly(g: Grid, k: nat)
    requires Consistent(g) && k in g.ctx.orders
    ensures Affordable(g.ctx.funds, g.ctx.orders[k])
      <==> Funded(g.st, g.ctx.orders[k].side, Spacing(g.st), g.ctx.commission)
  {
    assert Known(g.st, k);
    if g.st.fills == [] {
      InitialFundedExactly(g, k);
    } else {
      GridIsOpened(g);
      if g.ctx.orders[k].side == Buy {
        BuyFundedExactly(g);
      } else {
        SellFundedExactly(g);
      }
    }
  }

  /** Every backtest with positive closes, whatever its funds, commission and spacing: an open order
      would be accepted if and only if the condition on the placement and the fills since holds. */
  lemma EveryOrderFunded(funds: Funds, commission: real, gridCount: nat, gridSpacing: real, rsi: Rsi,
    candles: seq<Candle>, k: nat)
    requires gridCount > 0 && ClosePositive(candles)
    ensures Consistent(Start(funds, commission, gridCount, gridSpacing, rsi))
    ensures var g := RunCandles(Start(funds, commission, gridCount, gridSpacing, rsi), candles);
      k in g.ctx.orders ==>
        var funded := Funded(g.st, g.ctx.orders[k].side, Share(gridSpacing, g.st.baseline), commission);
        Affordable(g.ctx.funds, g.ctx.orders[k]) <==> funded
  {
    var start := Start(funds, commission, gridCount, gridSpacing, rsi);
    StartKeeps(funds, commission, gridCount, gridSpacing, rsi);
    RunKeeps(start, candles);
    var g := RunCandles(start, candles);
    if k in g.ctx.orders {
      FundedExactly(g, k);
    }
  }

  // ---------- the band without commission ----------

  lemma SpacingNonNegative(g: Grid)
    requires GridInv(g) && g.st.fills != []
    ensures Spacing(g.st) >= 0.0 && g.st.volume >= 0.0 && g.st.baseline > 0.0
  {
    ProductNonNegative(g.st.gridSpacing, g.st.baseline);
  }

  /** After a minimum-trade placement: the cash on the next rung, and the slack, are not negative. */
  predicate CashAhead(st: Strategy, spacing: real)
    requires st.fills != []
  {
    var left := Reserve(st.volume, st.baseline, spacing, (st.gridCount - 1) as real, Net(st.fills),
      Sells(st.fills[1..]));
    left + Slack(st).balance >= 0.0
  }

  /** And likewise the units. */
  predicate UnitsAhead(st: Strategy) {
    Share(st.volume, (st.gridCount + Net(st.fills)) as real) + Slack(st).position >= 0.0
  }

  lemma FreeOfCommission(st: Strategy, spacing: real)
    requires st.fills != []
    ensures !st.even ==> (BuyFunded(st, spacing, 0.0) <==> CashAhead(st, spacing))
    ensures !st.even ==> (SellFunded(st, 0.0) <==> UnitsAhead(st))
    ensures Share(0.0, Sold(st.fills)) == 0.0 && Share(0.0, UnitsBought(st)) == 0.0
  {
  }

  lemma BuyInBand(g: Grid)
    requires GridInv(g) && g.st.fills != [] && g.ctx.commission == 0.0
    requires g.st.buy.Some? && Net(g.st.fills) + 1 <= g.st.gridCount
    ensures Affordable(g.ctx.funds, g.ctx.orders[g.st.buy.value.index]) <==> g.st.even || CashAhead(g.st, Spacing(g.st))
  {
    GridIsOpened(g);
    BuyFundedExactly(g);
    FreeOfCommission(g.st, Spacing(g.st));
    SpacingNonNegative(g);
    if g.st.even {
      ReserveNonNegative(g.st.volume, g.st.baseline, Spacing(g.st), g.st.gridCount as real, Net(g.st.fills),
        Sells(g.st.fills[1..]));
    }
  }

  lemma SellInBand(g: Grid)
    requires GridInv(g) && g.st.fills != [] && g.ctx.commission == 0.0
    requires g.st.sell.Some? && 1 - Net(g.st.fills) <= g.st.gridCount
    ensures Affordable(g.ctx.funds, g.ctx.orders[g.st.sell.value.index]) <==> g.st.even || UnitsAhead(g.st)
  {
    GridIsOpened(g);
    SellFundedExactly(g);
    FreeOfCommission(g.st, Spacing(g.st));
    SpacingNonNegative(g);
    if g.st.even {
      ProductNonNegative(g.st.volume, (g.st.gridCount + Net(g.st.fills) - 1) as real);
    }
  }

  /** Without commission a resting order that keeps the rung within gridCount of the first fill is
      accepted if and only if the placement was one of equal shares, or the cash, or the units, left
      after the volume by which the other kind leads cover its slack. */
  lemma FundedInBand(g: Grid)
    requires GridInv(g) && g.st.fills != [] && g.ctx.commission == 0.0
    ensures var st := g.st;
      && (st.buy.Some? && Net(st.fills) + 1 <= st.gridCount ==>
            (Affordable(g.ctx.funds, g.ctx.orders[st.buy.value.index]) <==> st.even || CashAhead(st, Spacing(st))))
      && (st.sell.Some? && 1 - Net(st.fills) <= st.gridCount ==>
            (Affordable(g.ctx.funds, g.ctx.orders[st.sell.value.index]) <==> st.even || UnitsAhead(st)))
  {
    if g.st.buy.Some? && Net(g.st.fills) + 1 <= g.st.gridCount {
      BuyInBand(g);
    }
    if g.st.sell.Some? && 1 - Net(g.st.fills) <= g.st.gridCount {
      SellInBand(g);
    }
  }

  /** Filling order o keeps the net number of buys within gridCount of the first fill; the order of
      the placement itself counts as within. */
  predicate InBand(st: Strategy, o: LimitOrder) {
    st.fills == [] || (if o.side == Buy then Net(st.fills) + 1 <= st.gridCount else 1 - Net(st.fills) <= st.gridCount)
  }

  /** The band in which a minimum-trade placement of at least the minimum worth is funded: it has paid
      for one rung in advance, and the slack may take another one. */
  predicate InNarrowBand(st: Strategy, o: LimitOrder) {
    if st.fills == [] then st.gridCount >= 2
    else if o.side == Buy then Net(st.fills) + 3 <= st.gridCount
    else 1 - Net(st.fills) <= st.gridCount
  }

  lemma NarrowReserve(q: real, price: real, spacing: real, n: real, k: int, sells: nat)
    requires q >= 0.0 && price > 0.0 && spacing >= 0.0 && (k + 1) as real + 1.0 <= n
    ensures Reserve(q, price, spacing, n, k, sells) >= q * price
  {
    TriangleClosed(k + 1);
    var more := price * (n - (k + 1) as real - 1.0) + spacing * ((Triangle(k + 1) + sells) as real);
    ProductNonNegative(price, n - (k + 1) as real - 1.0);
    ProductNonNegative(spacing, (Triangle(k + 1) + sells) as real);
    ProductNonNegative(q, more);
    assert price * (n - (k + 1) as real) == price * (n - (k + 1) as real - 1.0) + price;
    assert q * (more + price) == q * more + q * price;
  }

  lemma NarrowUnits(q: real, price: real, slack: real, rungs: real)
    requires q >= 0.0 && price > 0.0 && rungs >= 1.0 && Share(q, price) >= 7.0 && Share(slack, price) > -7.0
    ensures Share(q, rungs) + slack >= 0.0
  {
    ProductNonNegative(q, rungs - 1.0);
    Distribute(q, rungs - 1.0, 1.0);
    Distribute(price, q, slack);
    PositiveFactor(q + slack, price);
  }

  lemma SmallOpening(g: Grid, k: nat)
    requires GridInv(g) && !g.st.even && Initial(g.st) && k in g.ctx.orders
    requires Share(g.st.volume, g.st.baseline) >= 7.0 && g.st.gridCount >= 2
    ensures Affordable(g.ctx.funds, g.ctx.orders[k])
  {
    InitialOrder(g, k);
    InitialFundedExactly(g, k);
    SmallOpeningFunded(g.st);
  }

  lemma SmallOpeningFunded(st: Strategy)
    requires st.baseline > 0.0 && st.gridCount >= 2 && Placement(st) && !st.even
    requires Share(st.volume, st.baseline) >= 7.0
    ensures OpeningFunded(st)
  {
    var n := (st.gridCount - 2) as real;
    assert (st.gridCount - 1) as real == n + 1.0;
    SlackOfPlacement(st);
    OneMore(n, st.volume, st.baseline);
  }

  lemma OneMore(n: real, q: real, p: real)
    requires n >= 0.0 && q * p >= 0.0
    ensures Share(Share(n + 1.0, q), p) >= q * p
  {
    ProductNonNegative(n, q * p);
    assert (n + 1.0) * q == n * q + q;
    assert (n * q + q) * p == n * (q * p) + q * p;
  }

  lemma SmallBuy(g: Grid)
    requires GridInv(g) && !g.st.even && g.ctx.commission == 0.0 && g.st.fills != [] && g.st.buy.Some?
    requires Share(g.st.volume, g.st.baseline) >= 7.0 && Net(g.st.fills) + 3 <= g.st.gridCount
    ensures Affordable(g.ctx.funds, g.ctx.orders[g.st.buy.value.index])
  {
    SpacingNonNegative(g);
    SlackOfPlacement(g.st);
    BuyInBand(g);
    NarrowReserve(g.st.volume, g.st.baseline, Spacing(g.st), (g.st.gridCount - 1) as real, Net(g.st.fills),
      Sells(g.st.fills[1..]));
  }

  lemma SmallSell(g: Grid)
    requires GridInv(g) && !g.st.even && g.ctx.commission == 0.0 && g.st.fills != [] && g.st.sell.Some?
    requires Share(g.st.volume, g.st.baseline) >= 7.0 && 1 - Net(g.st.fills) <= g.st.gridCount
    ensures Affordable(g.ctx.funds, g.ctx.orders[g.st.sell.value.index])
  {
    SpacingNonNegative(g);
    SlackOfPlacement(g.st);
    SellInBand(g);
    NarrowUnits(g.st.volume, g.st.baseline, Slack(g.st).position, (g.st.gridCount + Net(g.st.fills)) as real);
  }

  /** Within the band of its kind of placement; a volume of the smaller kind is worth a trade. */
  predicate InFundedBand(st: Strategy, o: LimitOrder) {
    if st.even then InBand(st, o) else Share(st.volume, st.baseline) >= 7.0 && InNarrowBand(st, o)
  }

  lemma OrderFunded(g: Grid, k: nat)
    requires GridInv(g) && g.ctx.commission == 0.0 && k in g.ctx.orders && InFundedBand(g.st, g.ctx.orders[k])
    ensures Affordable(g.ctx.funds, g.ctx.orders[k])
  {
    assert Known(g.st, k);
    if !g.st.even && g.st.fills == [] {
      SmallOpening(g, k);
    } else if !g.st.even && g.ctx.orders[k].side == Buy {
      SmallBuy(g);
    } else if !g.st.even {
      SmallSell(g);
    } else if g.st.fills == [] {
      InitialFunded(g, k);
    } else if g.ctx.orders[k].side == Buy {
      BuyInBand(g);
    } else {
      SellInBand(g);
    }
  }

  /** Every backtest without commission, on any sound stream: after a placement of equal shares no open
      order within the band would be rejected, and after a minimum-trade placement none within the
      narrower band, if a volume is worth the minimum trade. */
  lemma EveryGridFunded(funds: Funds, gridCount: nat, gridSpacing: real, rsi: Rsi, candles: seq<Candle>, k: nat)
    requires Sane(funds, 0.0, gridSpacing) && gridCount > 0 && AllSound(candles)
    ensures Consistent(Start(funds, 0.0, gridCount, gridSpacing, rsi))
    ensures var g := RunCandles(Start(funds, 0.0, gridCount, gridSpacing, rsi), candles);
      k in g.ctx.orders && InFundedBand(g.st, g.ctx.orders[k]) ==> Affordable(g.ctx.funds, g.ctx.orders[k])
  {
    var start := Start(funds, 0.0, gridCount, gridSpacing, rsi);
    StartKeeps(funds, 0.0, gridCount, gridSpacing, rsi);
    RunKeeps(start, candles);
    var g := RunCandles(start, candles);
    if k in g.ctx.orders && InFundedBand(g.st, g.ctx.orders[k]) {
      OrderFunded(g, k);
    }
  }

  // ---------- what the commission costs ----------

  lemma NoneLeft(q: real, c: real, bought: real, left: real)
    requires left == 0.0 && c >= 0.0 && bought >= 0.0
    ensures Share(q, left) >= Share(c, bought) <==> c == 0.0 || bought == 0.0
  {
    if c > 0.0 && bought > 0.0 {
      assert c * bought > 0.0;
    }
  }

  lemma {:induction false} BoughtNonNegative(fills: seq<GridFill>)
    requires forall i | 0 <= i < |fills| :: fills[i].quantity >= 0.0
    ensures Bought(fills) >= 0.0
  {
    if fills != [] {
      BoughtNonNegative(fills[..|fills| - 1]);
    }
  }

  /** On the last rung but one, the sell is accepted if and only if the volume by which a minimum-trade
      placement leads, and its slack, cover the commission taken in units; after a placement of equal
      shares, only if nothing has been bought or there is no commission. */
  lemma LastRungSell(g: Grid)
    requires GridInv(g) && g.st.fills != [] && g.st.sell.Some? && Net(g.st.fills) == 1 - g.st.gridCount
    ensures var accepted := Affordable(g.ctx.funds, g.ctx.orders[g.st.sell.value.index]);
      && (accepted <==> (Share(g.st.volume, Lead(g.st) as real) + Slack(g.st).position
            >= Share(g.ctx.commission, UnitsBought(g.st))))
      && (g.st.even ==> (accepted <==> g.ctx.commission == 0.0 || UnitsBought(g.st) == 0.0))
  {
    GridIsOpened(g);
    SellFundedExactly(g);
    BoughtNonNegative(g.st.fills);
    BoughtInUnits(g);
    if g.st.even {
      NoneLeft(g.st.volume, g.ctx.commission, UnitsBought(g.st), 0.0);
    }
  }

  lemma RungsLeft(n: real, q: real, k: real, taken: real, position: real)
    requires position == Share(n, q) + Share(q, k) - taken && position >= 0.0 && q >= 0.0 && taken > 0.0
    ensures n + k > 0.0
  {
    assert n * q + q * k == q * (n + k);
    if n + k <= 0.0 {
      ProductNonNegative(q, -(n + k));
    }
  }

  /** Once a unit has been bought under a commission, a grid of equal shares never sells down to rung
      -gridCount. */
  lemma NeverLastRung(g: Grid)
    requires GridInv(g) && g.st.even && g.st.fills != [] && g.ctx.commission > 0.0 && Bought(g.st.fills) > 0.0
    ensures Net(g.st.fills) + g.st.gridCount > 0
  {
    GridIsOpened(g);
    OpenedPosition(g);
    assert g.ctx.commission * Bought(g.st.fills) > 0.0;
    RungsLeft(g.st.gridCount as real, g.st.volume, Net(g.st.fills) as real,
      Share(g.ctx.commission, Bought(g.st.fills)), g.ctx.funds.position);
  }

  lemma EveryGridAboveLastRung(funds: Funds, commission: real, gridCount: nat, gridSpacing: real, rsi: Rsi,
    candles: seq<Candle>)
    requires Sane(funds, commission, gridSpacing) && commission > 0.0 && gridCount > 0 && AllSound(candles)
    ensures Consistent(Start(funds, commission, gridCount, gridSpacing, rsi))
    ensures var st := RunCandles(Start(funds, commission, gridCount, gridSpacing, rsi), candles).st;
      st.even && st.fills != [] && Bought(st.fills) > 0.0 ==> Net(st.fills) + gridCount > 0
  {
    var start := Start(funds, commission, gridCount, gridSpacing, rsi);
    StartKeeps(funds, commission, gridCount, gridSpacing, rsi);
    RunKeeps(start, candles);
    var g := RunCandles(start, candles);
    if g.st.even && g.st.fills != [] && Bought(g.st.fills) > 0.0 {
      NeverLastRung(g);
    }
  }
}
