/** Runs of the backtest in which an order within the band is rejected. Each starts cold, as the
    program does: 20 flat candles let the index take prices, the next one opens the grid. */
module GridExamples {
  import opened Common
  import opened Numbers
  import opened SlidingRsi
  import opened GridModel
  import opened GridTheorems
  import opened GridProfit
  import opened GridFunding

  const FLAT: Candle := Candle(10.0, 10.0, 10.0, 10.0)

  /** A candle that reaches down to 9 and closes where it opened. */
  const DIP: Candle := Candle(10.0, 10.0, 10.0, 9.0)

  function Flats(n: nat): (s: seq<Candle>)
    ensures |s| == n && forall i | 0 <= i < n :: s[i] == FLAT
  {
    seq(n, _ => FLAT)
  }

  lemma FlatsFirst(n: nat, rest: seq<Candle>)
    ensures Flats(0) + rest == rest
    ensures n > 0 ==> Flats(n) + rest == [FLAT] + (Flats(n - 1) + rest)
  {
  }

  // ---------- warming up ----------

  function Warming(funds: Funds, commission: real, gridCount: nat, n: nat): Grid {
    Start(funds, commission, gridCount, 0.1, Full(10.0, n))
  }

  /** The state a stream leads to. */
  ghost function After(g: Grid, candles: seq<Candle>): Option<Grid> {
    if Consistent(g) && ClosePositive(candles) then Some(RunCandles(g, candles)) else None
  }

  lemma AfterFirst(g: Grid, c: Candle, rest: seq<Candle>)
    requires Consistent(g) && c.close > 0.0
    ensures After(g, [c] + rest) == After(Tick(g, c), rest)
  {
    TickKeeps(g, c);
    if ClosePositive(rest) {
      RunFirst(g, c, rest);
    } else {
      var i :| 0 <= i < |rest| && rest[i].close <= 0.0;
      assert ([c] + rest)[i + 1].close <= 0.0;
    }
  }

  /** With nothing open, a candle is a matter of the strategy alone. */
  lemma TickIdle(funds: Funds, commission: real, gridCount: nat, rsi: Rsi)
    requires gridCount > 0
    ensures var g := Start(funds, commission, gridCount, 0.1, rsi);
      Consistent(g) && Tick(g, FLAT) == StrategyUpdate(g, FLAT)
  {
    StartKeeps(funds, commission, gridCount, 0.1, rsi);
    ScanEmpty(Start(funds, commission, gridCount, 0.1, rsi), FLAT);
  }

  lemma WarmStep(funds: Funds, commission: real, gridCount: nat, n: nat, rest: seq<Candle>)
    requires gridCount > 0 && n < 19
    ensures After(Warming(funds, commission, gridCount, n), [FLAT] + rest)
      == After(Warming(funds, commission, gridCount, n + 1), rest)
  {
    var g := Warming(funds, commission, gridCount, n);
    TickIdle(funds, commission, gridCount, Full(10.0, n));
    PushFlat(10.0, n);
    PushFlat(10.0, n + 1);
    assert StrategyUpdate(g, FLAT) == Warming(funds, commission, gridCount, n + 1);
    AfterFirst(g, FLAT, rest);
  }

  lemma {:induction false} WarmUp(funds: Funds, commission: real, gridCount: nat, n: nat, rest: seq<Candle>)
    requires gridCount > 0 && n <= 19
    ensures After(Warming(funds, commission, gridCount, 19 - n), Flats(n) + rest)
      == After(Warming(funds, commission, gridCount, 19), rest)
  {
    FlatsFirst(n, rest);
    if n > 0 {
      WarmStep(funds, commission, gridCount, 19 - n, Flats(n - 1) + rest);
      WarmUp(funds, commission, gridCount, n - 1, rest);
    }
  }

  function Cold(funds: Funds, commission: real, gridCount: nat): Grid {
    Start(funds, commission, gridCount, 0.1, Fresh(20))
  }

  lemma ColdStep(funds: Funds, commission: real, gridCount: nat, rest: seq<Candle>)
    requires gridCount > 0
    ensures After(Cold(funds, commission, gridCount), [FLAT] + rest)
      == After(Warming(funds, commission, gridCount, 0), rest)
  {
    TickIdle(funds, commission, gridCount, Fresh(20));
    PushFlat(10.0, 0);
    assert StrategyUpdate(Cold(funds, commission, gridCount), FLAT) == Warming(funds, commission, gridCount, 0);
    AfterFirst(Cold(funds, commission, gridCount), FLAT, rest);
  }

  // ---------- the placement ----------

  /** The grid with a buy of quantity resting at 10, and volume as its grid volume. */
  function Placed(funds: Funds, commission: real, gridCount: nat, volume: real, quantity: real, even: bool): Grid {
    Grid(Context(funds, map[0 := LimitOrder(Buy, quantity, 10.0)], 1, commission),
      Strategy(gridCount, 0.1, 10.0, volume, Some(OrderInfo(0, 10.0)), None, 0, Full(10.0, 20), [], even, funds))
  }

  /** At a price of 10 the funds make for a buy of quantity, and a grid of the given volume. */
  ghost predicate Makes(funds: Funds, gridCount: nat, volume: real, quantity: real, even: bool) {
    var target := funds.balance / 20.0 + funds.position / 2.0;
    var gap := target - funds.position;
    && gridCount > 0 && target == volume * gridCount as real
    && gap > -0.7 && (even <==> gap >= 0.7)
    && quantity == if even then gap else volume
  }

  lemma PlacesAtTen(g: Grid, volume: real, quantity: real, even: bool)
    requires Makes(g.ctx.funds, g.st.gridCount, volume, quantity, even)
    ensures PlaceInitial(g, 10.0) == PlaceBuy(
      g.(st := g.st.(volume := volume, orderBalance := 0, fills := [], even := even, placed := g.ctx.funds)), 10.0,
        quantity)
  {
    var f := g.ctx.funds;
    var target := f.balance / 20.0 + f.position / 2.0;
    assert Target(f, 10.0) == target;
    QuotientIs(target, g.st.gridCount as real, volume);
    var gap := target - f.position;
    assert Imbalance(target, f.position, 10.0) == if gap < 0.0 then -gap * 10.0 else gap * 10.0;
  }

  lemma ReactOpens(g: Grid, price: real)
    requires price > 0.0 && g.st.gridCount > 0 && Value(g.st.rsi) == NotANumber && g.st.buy.None? && g.st.sell.None?
    ensures React(g, price) == PlaceInitial(g.(st := g.st.(baseline := price)), price)
  {
  }

  lemma OpensWhenFull(funds: Funds, commission: real, gridCount: nat, volume: real, quantity: real, even: bool)
    requires Makes(funds, gridCount, volume, quantity, even)
    ensures StrategyUpdate(Warming(funds, commission, gridCount, 19), FLAT)
      == Placed(funds, commission, gridCount, volume, quantity, even)
  {
    PushFlat(10.0, 19);
    PushFlat(10.0, 20);
    var g := Start(funds, commission, gridCount, 0.1, Full(10.0, 20));
    ReactOpens(g, 10.0);
    PlacesAtTen(g.(st := g.st.(baseline := 10.0)), volume, quantity, even);
  }

  /** The first 21 candles place the order. */
  lemma ColdOpens(funds: Funds, commission: real, gridCount: nat, volume: real, quantity: real, even: bool,
    rest: seq<Candle>)
    requires Makes(funds, gridCount, volume, quantity, even)
    ensures var g := Placed(funds, commission, gridCount, volume, quantity, even);
      Consistent(g) && After(Cold(funds, commission, gridCount), Flats(21) + rest) == After(g, rest)
  {
    var opening := [FLAT] + rest;
    ColdStep(funds, commission, gridCount, Flats(19) + opening);
    WarmUp(funds, commission, gridCount, 19, opening);
    WarmOpens(funds, commission, gridCount, volume, quantity, even, rest);
    assert Flats(21) + rest == [FLAT] + (Flats(19) + opening);
  }

  lemma WarmOpens(funds: Funds, commission: real, gridCount: nat, volume: real, quantity: real, even: bool,
    rest: seq<Candle>)
    requires Makes(funds, gridCount, volume, quantity, even)
    ensures var g := Placed(funds, commission, gridCount, volume, quantity, even);
      Consistent(g) && After(Warming(funds, commission, gridCount, 19), [FLAT] + rest) == After(g, rest)
  {
    var g := Warming(funds, commission, gridCount, 19);
    TickIdle(funds, commission, gridCount, Full(10.0, 19));
    TickKeeps(g, FLAT);
    OpensWhenFull(funds, commission, gridCount, volume, quantity, even);
    AfterFirst(g, FLAT, rest);
  }

  // ---------- a fill, and nothing else ----------

  /** Between two opening candles the strategy only watches: the index stays full of zeros, and the
      price of 10 is the middle of the band. */
  ghost predicate Watching(g: Grid) {
    g.st.rsi == Full(10.0, 20) && g.st.baseline == 10.0 && g.st.gridSpacing == 0.1
    && (g.st.buy.Some? || g.st.sell.Some?)
  }

  lemma WatchOnly(g: Grid, c: Candle)
    requires Watching(g) && g.st.gridCount > 0 && c.close == 10.0
    ensures StrategyUpdate(g, c) == g
  {
    PushFlat(10.0, 20);
    var n := g.st.gridCount as real;
    assert Bound(10.0, 0.1, g.st.gridCount) == n;
  }

  /** A candle whose only effect is the fill of order k. */
  lemma AfterFill(g: Grid, c: Candle, k: nat, rest: seq<Candle>)
    requires Consistent(g) && OnlyFills(g, c, k)
    ensures After(g, [c] + rest) == After(FillOne(g, k), rest)
  {
    ScanIsOnce(g, c);
    FillKeeps(g, k);
    WatchOnly(FillOne(g, k), c);
    AfterFirst(g, c, rest);
  }

  lemma AfterNothing(g: Grid)
    requires Consistent(g)
    ensures After(g, []) == Some(g)
  {
  }

  /** Order k of g is all that candle c fills. */
  ghost predicate OnlyFills(g: Grid, c: Candle, k: nat) {
    && Agree(g) && c.close == 10.0 && k in g.ctx.orders && Known(g.st, k)
    && Once(g, c) == FillOne(g, k) && Watching(FillOne(g, k))
  }

  lemma AfterTwoFills(g: Grid, c: Candle, k: nat, c': Candle, k': nat)
    requires Consistent(g) && OnlyFills(g, c, k) && OnlyFills(FillOne(g, k), c', k')
    ensures After(g, [c, c']) == Some(FillOne(FillOne(g, k), k'))
  {
    assert [c, c'] == [c] + [c'] && [c'] == [c'] + [];
    AfterFill(g, c, k, [c']);
    FillKeeps(g, k);
    AfterFill(FillOne(g, k), c', k', []);
    FillKeeps(FillOne(g, k), k');
    AfterNothing(FillOne(FillOne(g, k), k'));
  }

  /** An order of the given side that stays within the band is open, and the account cannot pay. */
  ghost predicate Rejects(g: Grid, side: OrderSide) {
    exists k :: k in g.ctx.orders && g.ctx.orders[k].side == side && InBand(g.st, g.ctx.orders[k])
      && !Affordable(g.ctx.funds, g.ctx.orders[k])
  }

  // ---------- equal shares, with the program's commission ----------

  /** Five units, bought at a thousandth less. */
  ghost predicate HalfPair(g: Grid) {
    && Agree(g) && Watching(g) && g.st.even && g.st.gridCount == 1 && |g.st.fills| == 1
    && g.ctx.funds.position == 5.0 * 0.999
    && g.st.sell == Some(OrderInfo(1, 11.0)) && g.ctx.orders[1] == LimitOrder(Sell, 5.0, 11.0)
  }

  lemma HalfFilled(g: Grid)
    requires g == Placed(Funds(100.0, 0.0), 0.001, 1, 5.0, 5.0, true)
    ensures OnlyFills(g, FLAT, 0) && HalfPair(FillOne(g, 0))
  {
    FillOneIsFilling(g, 0);
    assert Cost(g.ctx.orders[0]) == 50.0 && Spacing(g.st) == 1.0;
  }

  lemma HalfRejects(g: Grid)
    requires HalfPair(g)
    ensures Rejects(g, Sell)
  {
    assert g.st.fills[1..] == [];
    assert g.ctx.orders[1].side == Sell;
  }

  lemma HalfRun(g: Grid)
    requires Consistent(g) && OnlyFills(g, FLAT, 0) && HalfPair(FillOne(g, 0))
    ensures var r := After(g, [FLAT]); r.Some? && r.value.st.even && Rejects(r.value, Sell)
  {
    assert [FLAT] + [] == [FLAT];
    AfterFill(g, FLAT, 0, []);
    FillKeeps(g, 0);
    AfterNothing(FillOne(g, 0));
    HalfRejects(FillOne(g, 0));
  }

  /** With the commission of the backtest program the band is not funded: start cold from cash only. The
      21st flat candle places the order, the 22nd fills it, and the sell then resting one rung above is
      more than there is. */
  lemma CommissionBreaksFunding()
    ensures Sound(FLAT)
    ensures var r := After(Cold(Funds(100.0, 0.0), 0.001, 1), Flats(22));
      r.Some? && r.value.st.even && Rejects(r.value, Sell)
  {
    var f := Funds(100.0, 0.0);
    var g := Placed(f, 0.001, 1, 5.0, 5.0, true);
    ColdOpens(f, 0.001, 1, 5.0, 5.0, true, [FLAT]);
    HalfFilled(g);
    HalfRun(g);
    assert Flats(22) == Flats(21) + [FLAT];
  }

  // ---------- minimum trade, without commission ----------

  lemma TooDear(g: Grid)
    requires g == Placed(Funds(100.0, 10.3), 0.0, 1, 10.15, 10.15, false)
    ensures Rejects(g, Buy)
  {
    assert g.ctx.orders[0].side == Buy && Cost(g.ctx.orders[0]) == 101.5;
  }

  /** The order of a minimum-trade placement itself may be more than there is. */
  lemma SmallOpeningRejected()
    ensures var r := After(Cold(Funds(100.0, 10.3), 0.0, 1), Flats(21));
      r.Some? && !r.value.st.even && Rejects(r.value, Buy)
  {
    var f := Funds(100.0, 10.3);
    var g := Placed(f, 0.0, 1, 10.15, 10.15, false);
    ColdOpens(f, 0.0, 1, 10.15, 10.15, false, []);
    TooDear(g);
    AfterNothing(g);
    assert Flats(21) + [] == Flats(21);
  }

  /** The grid after its first fill: a pair of five units around 10. */
  ghost predicate SmallPair(g: Grid) {
    && Agree(g) && Watching(g) && !g.st.even && g.st.volume == 5.0 && g.st.gridCount == 2 && g.ctx.commission == 0.0
    && g.ctx.funds.balance == 50.0 && |g.st.fills| == 1
    && g.st.sell == Some(OrderInfo(1, 11.0)) && g.st.buy == Some(OrderInfo(2, 9.0))
    && g.ctx.orders[1] == LimitOrder(Sell, 5.0, 11.0) && g.ctx.orders[2] == LimitOrder(Buy, 5.0, 9.0)
  }

  lemma SmallFilled(g: Grid)
    requires g == Placed(Funds(100.0, 10.0), 0.0, 2, 5.0, 5.0, false)
    ensures OnlyFills(g, FLAT, 0) && SmallPair(FillOne(g, 0))
  {
    FillOneIsFilling(g, 0);
    assert Cost(g.ctx.orders[0]) == 50.0 && Spacing(g.st) == 1.0;
  }

  lemma NetOfTwo(fills: seq<GridFill>)
    requires |fills| == 2 && fills[1].side == Buy
    ensures Net(fills) == 1
  {
    var later := fills[1..];
    assert |later| == 1 && later[..|later| - 1] == [] && Last(later) == fills[1];
    assert Signed(later[..|later| - 1]) == 0;
    assert Signed(later) == 1;
  }

  /** The grid after the dip: 45 of 50 are spent, and the next buy costs 40. */
  lemma SmallDips(g: Grid)
    requires SmallPair(g)
    ensures OnlyFills(g, DIP, 2) && !FillOne(g, 2).st.even
    ensures Rejects(FillOne(g, 2), Buy)
  {
    FillOneIsFilling(g, 2);
    var r := FillOne(g, 2);
    assert Cost(g.ctx.orders[2]) == 45.0 && Spacing(g.st) == 1.0;
    var k := g.ctx.next + 1;
    assert r.ctx.orders[k] == LimitOrder(Buy, 5.0, 8.0) && r.ctx.funds.balance == 5.0;
    assert Cost(r.ctx.orders[k]) == 40.0;
    NetOfTwo(r.st.fills);
  }

  lemma SmallRun(g: Grid)
    requires Consistent(g) && OnlyFills(g, FLAT, 0) && SmallPair(FillOne(g, 0))
    ensures var r := After(g, [FLAT, DIP]); r.Some? && !r.value.st.even && Rejects(r.value, Buy)
  {
    SmallDips(FillOne(g, 0));
    AfterTwoFills(g, FLAT, 0, DIP, 2);
  }

  lemma ColdSmallRun(f: Funds, commission: real, gridCount: nat, volume: real)
    requires Makes(f, gridCount, volume, volume, false)
    requires var g := Placed(f, commission, gridCount, volume, volume, false);
      OnlyFills(g, FLAT, 0) && SmallPair(FillOne(g, 0))
    ensures var r := After(Cold(f, commission, gridCount), Flats(21) + [FLAT, DIP]);
      r.Some? && !r.value.st.even && Rejects(r.value, Buy)
  {
    ColdOpens(f, commission, gridCount, volume, volume, false, [FLAT, DIP]);
    SmallRun(Placed(f, commission, gridCount, volume, volume, false));
  }

  /** And so may a later one: with two rungs, after the placement's order and one buy at 9, the buy at 8
      lies within the band and costs 40, but only 5 are left. */
  lemma SmallGridRejected()
    ensures Sound(DIP)
    ensures var r := After(Cold(Funds(100.0, 10.0), 0.0, 2), Flats(22) + [DIP]);
      r.Some? && !r.value.st.even && Rejects(r.value, Buy)
  {
    var f := Funds(100.0, 10.0);
    var g := Placed(f, 0.0, 2, 5.0, 5.0, false);
    SmallFilled(g);
    ColdSmallRun(f, 0.0, 2, 5.0);
    assert Flats(22) + [DIP] == Flats(21) + [FLAT, DIP];
  }
}
