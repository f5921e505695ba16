/** The cash and position of the grid as closed forms of the fills since the last placement. */
module GridProfit {
  import opened Common
  import opened SlidingRsi
  import opened GridModel
  import opened GridTheorems

  function Buys(fills: seq<GridFill>): nat {
    if fills == [] then 0 else Buys(fills[..|fills| - 1]) + if Last(fills).side == Buy then 1 else 0
  }

  function Sells(fills: seq<GridFill>): nat {
    if fills == [] then 0 else Sells(fills[..|fills| - 1]) + if Last(fills).side == Sell then 1 else 0
  }

  /** Units bought, and quote value sold. */
  function Bought(fills: seq<GridFill>): real {
    if fills == [] then 0.0 else Bought(fills[..|fills| - 1]) + BoughtBy(Last(fills))
  }

  function Sold(fills: seq<GridFill>): real {
    if fills == [] then 0.0 else Sold(fills[..|fills| - 1]) + SoldBy(Last(fills))
  }

  /** The net number of buys after the first fill. */
  function Net(fills: seq<GridFill>): int {
    if fills == [] then 0 else Signed(fills[1..])
  }

  /** 0 + 1 + ... + k, continued to negative k. */
  function Triangle(k: int): int
    decreases Rank(k)
  {
    if k == 0 then 0 else if k > 0 then Triangle(k - 1) + k else Triangle(k + 1) - (k + 1)
  }

  function Rank(k: int): nat {
    if k < 0 then -k else k
  }

  lemma {:induction false} TriangleClosed(k: int)
    ensures 2 * Triangle(k) == k * (k + 1) && Triangle(k) >= 0
    decreases Rank(k)
  {
    if k > 0 {
      TriangleClosed(k - 1);
      assert (k - 1) * k == k * (k + 1) - 2 * k;
    } else if k < 0 {
      TriangleClosed(k + 1);
      assert (k + 1) * (k + 2) == k * (k + 1) + 2 * (k + 1);
    }
  }

  lemma TriangleStep(k: int)
    ensures Triangle(k + 1) == Triangle(k) + k + 1
  {
  }

  /** The cash paid for k rungs down the ladder and earned, one spacing each, by the sells. */
  function Ladder(volume: real, price: real, spacing: real, k: int, sells: nat): real {
    Share(volume, Share(spacing, (Triangle(k) + sells) as real) - Share(price, k as real))
  }

  lemma BuyStep(volume: real, price: real, spacing: real, k: int, sells: nat, at: real)
    requires at == price - spacing * (k as real) - spacing
    ensures Ladder(volume, price, spacing, k + 1, sells) == Ladder(volume, price, spacing, k, sells) - volume * at
  {
    TriangleStep(k);
    var before := spacing * ((Triangle(k) + sells) as real) - price * (k as real);
    var after := spacing * ((Triangle(k + 1) + sells) as real) - price * ((k + 1) as real);
    assert ((Triangle(k + 1) + sells) as real) == (Triangle(k) + sells) as real + k as real + 1.0;
    assert after == before - at;
    assert volume * (before - at) == volume * before - volume * at;
  }

  lemma SellStep(volume: real, price: real, spacing: real, k: int, sells: nat, at: real)
    requires at == price - spacing * (k as real) + spacing
    ensures Ladder(volume, price, spacing, k - 1, sells + 1) == Ladder(volume, price, spacing, k, sells) + volume * at
  {
    TriangleStep(k - 1);
    var before := spacing * ((Triangle(k) + sells) as real) - price * (k as real);
    var after := spacing * ((Triangle(k - 1) + sells + 1) as real) - price * ((k - 1) as real);
    assert ((Triangle(k - 1) + sells + 1) as real) == (Triangle(k) + sells) as real - k as real + 1.0;
    assert after == before + at;
    assert volume * (before + at) == volume * before + volume * at;
  }

  /** Each fill after the first follows the one before it. */
  ghost predicate Chained(fills: seq<GridFill>, spacing: real, volume: real, commission: real) {
    |fills| > 1 ==>
      && Chained(fills[..|fills| - 1], spacing, volume, commission)
      && Follows(fills[|fills| - 2], fills[|fills| - 1], spacing, volume, commission)
  }

  lemma {:induction false} ChainedFrom(fills: seq<GridFill>, spacing: real, volume: real, commission: real)
    requires forall i | 1 <= i < |fills| :: FollowsAt(fills, i, spacing, volume, commission)
    ensures Chained(fills, spacing, volume, commission)
  {
    if |fills| > 1 {
      var n := |fills| - 1;
      forall i | 1 <= i < n
        ensures FollowsAt(fills[..n], i, spacing, volume, commission)
      {
        assert FollowsAt(fills, i, spacing, volume, commission);
      }
      ChainedFrom(fills[..n], spacing, volume, commission);
      assert FollowsAt(fills, n, spacing, volume, commission);
    }
  }

  lemma TailOfFront(fills: seq<GridFill>)
    requires |fills| > 1
    ensures fills[..|fills| - 1][1..] == fills[1..][..|fills| - 2]
    ensures fills[1..] != [] && Last(fills[1..]) == Last(fills)
    ensures Last(fills[..|fills| - 1]) == fills[|fills| - 2]
    ensures fills[..|fills| - 1][0] == fills[0]
  {
  }

  /** Every fill price lies on the lattice of the first one: the rung is the net number of buys. */
  lemma {:induction false} ChainPrice(fills: seq<GridFill>, spacing: real, volume: real, commission: real)
    requires fills != [] && Chained(fills, spacing, volume, commission)
    ensures Last(fills).price == fills[0].price - Share(spacing, Net(fills) as real)
  {
    if |fills| > 1 {
      var n := |fills| - 1;
      TailOfFront(fills);
      ChainPrice(fills[..n], spacing, volume, commission);
      var k := Net(fills[..n]) as real;
      assert spacing * (k + 1.0) == spacing * k + spacing;
      assert spacing * (k - 1.0) == spacing * k - spacing;
    }
  }

  /** How the totals over the later fills grow with the last one. */
  lemma TotalsOfLast(fills: seq<GridFill>)
    requires |fills| > 1
    ensures var front, last := fills[..|fills| - 1], Last(fills);
      && front[0] == fills[0] && Last(front) == fills[|fills| - 2]
      && Net(fills) as real == Net(front) as real + Direction(last)
      && Buys(fills[1..]) == Buys(front[1..]) + (if last.side == Buy then 1 else 0)
      && Bought(fills[1..]) == Bought(front[1..]) + BoughtBy(last)
      && Sold(fills[1..]) == Sold(front[1..]) + SoldBy(last)
  {
    TailOfFront(fills);
  }

  function Direction(f: GridFill): real {
    if f.side == Buy then 1.0 else -1.0
  }

  /** One step of a total that pays a rate on each of two growing amounts. */
  lemma Accrue(before: real, after: real, first: real, q: real, k: real, d: real, c: real, spent: real, more: real)
    requires before == first + Share(q, k) - Share(c, spent)
    requires after == before + Share(q, d) - Share(c, more)
    ensures after == first + Share(q, k + d) - Share(c, spent + more)
  {
    Distribute(q, k, d);
    Distribute(c, spent, more);
  }

  /** The position after a chain of fills. */
  lemma {:induction false} ChainPosition(fills: seq<GridFill>, spacing: real, volume: real, commission: real,
    funds: Funds)
    requires fills != [] && Chained(fills, spacing, volume, commission) && funds == Last(fills).funds
    ensures funds.position
      == fills[0].funds.position + Share(volume, Net(fills) as real) - Share(commission, Bought(fills[1..]))
  {
    if |fills| > 1 {
      var front, last := fills[..|fills| - 1], Last(fills);
      var f := Last(front).funds;
      TotalsOfLast(fills);
      ChainPosition(front, spacing, volume, commission, f);
      PositionStep(f, last, volume, commission);
      Accrue(f.position, funds.position, fills[0].funds.position, volume, Net(front) as real, Direction(last),
        commission, Bought(front[1..]), BoughtBy(last));
    }
  }

  /** A cash function of the rung and the number of sells that accounts for single steps: paying
      the price of the rung below, receiving the price of the rung above. */
  ghost predicate StepsDown(cash: (int, nat) -> real, volume: real, price: real, spacing: real, k: int, sells: nat,
    at: real) {
    at == price - spacing * (k as real) - spacing ==> cash(k + 1, sells) == cash(k, sells) - volume * at
  }

  ghost predicate StepsUp(cash: (int, nat) -> real, volume: real, price: real, spacing: real, k: int, sells: nat,
    at: real) {
    at == price - spacing * (k as real) + spacing ==> cash(k - 1, sells + 1) == cash(k, sells) + volume * at
  }

  ghost predicate Steps(cash: (int, nat) -> real, volume: real, price: real, spacing: real) {
    && cash(0, 0) == 0.0
    && (forall k: int, sells: nat, at: real :: StepsDown(cash, volume, price, spacing, k, sells, at))
    && (forall k: int, sells: nat, at: real :: StepsUp(cash, volume, price, spacing, k, sells, at))
  }

  /** What a fill pays or receives before commission. */
  function Proceeds(f: GridFill): real {
    if f.side == Buy then -Share(f.quantity, f.price) else Share(f.quantity, f.price)
  }

  lemma CashFollows(fills: seq<GridFill>, spacing: real, volume: real, commission: real, cash: (int, nat) -> real)
    requires |fills| > 1 && Chained(fills, spacing, volume, commission)
    requires Steps(cash, volume, fills[0].price, spacing)
    ensures var front, last := fills[..|fills| - 1], Last(fills);
      cash(Net(fills), Sells(fills[1..]))
        == cash(Net(front), Sells(front[1..])) + Proceeds(last)
  {
    var front, last := fills[..|fills| - 1], Last(fills);
    TailOfFront(fills);
    ChainPrice(front, spacing, volume, commission);
    var k, sells := Net(front), Sells(front[1..]);
    assert StepsDown(cash, volume, fills[0].price, spacing, k, sells, last.price);
    assert StepsUp(cash, volume, fills[0].price, spacing, k, sells, last.price);
  }

  lemma AccrueCash(before: real, after: real, first: real, cash: real, paid: real, c: real, spent: real, more: real)
    requires before == first + cash - Share(c, spent)
    requires after == before + paid - Share(c, more)
    ensures after == first + (cash + paid) - Share(c, spent + more)
  {
    Distribute(c, spent, more);
  }

  /** The balance after a chain of fills. */
  lemma {:induction false} ChainBalance(fills: seq<GridFill>, spacing: real, volume: real, commission: real,
    cash: (int, nat) -> real)
    requires fills != [] && Chained(fills, spacing, volume, commission)
    requires Steps(cash, volume, fills[0].price, spacing)
    ensures Last(fills).funds.balance
      == fills[0].funds.balance + cash(Net(fills), Sells(fills[1..])) - Share(commission, Sold(fills[1..]))
  {
    if |fills| > 1 {
      var front, last := fills[..|fills| - 1], Last(fills);
      TotalsOfLast(fills);
      CashFollows(fills, spacing, volume, commission, cash);
      ChainBalance(front, spacing, volume, commission, cash);
      BalanceStep(Last(front).funds, last, volume, commission);
      AccrueCash(Last(front).funds.balance, last.funds.balance, fills[0].funds.balance,
        cash(Net(front), Sells(front[1..])), Proceeds(last), commission, Sold(front[1..]), SoldBy(last));
    }
  }

  lemma LadderSteps(volume: real, price: real, spacing: real)
    ensures Steps((k: int, sells: nat) => Ladder(volume, price, spacing, k, sells), volume, price, spacing)
  {
    var cash := (k: int, sells: nat) => Ladder(volume, price, spacing, k, sells);
    assert cash(0, 0) == Ladder(volume, price, spacing, 0, 0) == 0.0;
    forall k: int, sells: nat, at: real
      ensures StepsDown(cash, volume, price, spacing, k, sells, at)
      ensures StepsUp(cash, volume, price, spacing, k, sells, at)
    {
      if at == price - spacing * (k as real) - spacing {
        BuyStep(volume, price, spacing, k, sells, at);
      }
      if at == price - spacing * (k as real) + spacing {
        SellStep(volume, price, spacing, k, sells, at);
      }
    }
  }

  lemma Distribute(a: real, x: real, y: real)
    ensures a * (x + y) == a * x + a * y
  {
  }

  lemma PositionStep(f: Funds, last: GridFill, volume: real, commission: real)
    requires last.quantity == volume
      && last.funds == Settle(f, LimitOrder(last.side, last.quantity, last.price), commission)
    ensures last.funds.position == f.position + Share(volume, Direction(last)) - Share(commission, BoughtBy(last))
  {
    if last.side == Buy {
      assert volume * (1.0 - commission) == volume - commission * volume;
    }
  }

  lemma BalanceStep(f: Funds, last: GridFill, volume: real, commission: real)
    requires last.quantity == volume
      && last.funds == Settle(f, LimitOrder(last.side, last.quantity, last.price), commission)
    ensures last.funds.balance == f.balance + Proceeds(last) - Share(commission, SoldBy(last))
  {
    if last.side == Sell {
      var worth := volume * last.price;
      assert worth * (1.0 - commission) == worth - commission * worth;
    }
  }

  // ---------- the identities for every reachable state ----------

  lemma ChainOf(g: Grid)
    requires Chain(g) && g.st.fills != []
    ensures Chained(g.st.fills, Spacing(g.st), g.st.volume, g.ctx.commission)
    ensures g.st.fills[0].price == g.st.baseline && g.ctx.funds == Last(g.st.fills).funds
  {
    ChainedFrom(g.st.fills, Spacing(g.st), g.st.volume, g.ctx.commission);
  }

  lemma ChainIdentity(fills: seq<GridFill>, price: real, spacing: real, volume: real, commission: real, funds: Funds)
    requires fills != [] && Chained(fills, spacing, volume, commission)
    requires price == fills[0].price && funds == Last(fills).funds
    ensures funds.balance == fills[0].funds.balance
      + Ladder(volume, price, spacing, Net(fills), Sells(fills[1..])) - Share(commission, Sold(fills[1..]))
  {
    var cash := (k: int, sells: nat) => Ladder(volume, price, spacing, k, sells);
    LadderSteps(volume, price, spacing);
    ChainBalance(fills, spacing, volume, commission, cash);
  }

  /** The profit identity. With k the net number of buys since the first fill, the cash has paid
      for k rungs of a ladder and earned one spacing per sell, less commission on everything sold. */
  lemma ProfitIdentity(g: Grid)
    requires Chain(g) && g.st.fills != []
    ensures g.ctx.funds.balance == g.st.fills[0].funds.balance
      + Ladder(g.st.volume, g.st.baseline, Spacing(g.st), Net(g.st.fills), Sells(g.st.fills[1..]))
      - Share(g.ctx.commission, Sold(g.st.fills[1..]))
  {
    ChainOf(g);
    ChainIdentity(g.st.fills, g.st.baseline, Spacing(g.st), g.st.volume, g.ctx.commission, g.ctx.funds);
  }

  lemma PositionByBought(g: Grid)
    requires Chain(g) && g.st.fills != []
    ensures g.ctx.funds.position == g.st.fills[0].funds.position
      + Share(g.st.volume, Net(g.st.fills) as real) - Share(g.ctx.commission, Bought(g.st.fills[1..]))
  {
    ChainOf(g);
    ChainPosition(g.st.fills, Spacing(g.st), g.st.volume, g.ctx.commission, g.ctx.funds);
  }

  /** Every later buy is of one volume. */
  lemma {:induction false} ChainBought(fills: seq<GridFill>, spacing: real, volume: real, commission: real)
    requires fills != [] && Chained(fills, spacing, volume, commission)
    ensures Bought(fills[1..]) == Share(volume, Buys(fills[1..]) as real)
  {
    if |fills| > 1 {
      var front, last := fills[..|fills| - 1], Last(fills);
      TotalsOfLast(fills);
      ChainBought(front, spacing, volume, commission);
      Distribute(volume, Buys(front[1..]) as real, if last.side == Buy then 1.0 else 0.0);
    }
  }

  /** Its counterpart: the position has grown by k volumes, less commission on every later buy. */
  lemma PositionIdentity(g: Grid)
    requires Chain(g) && g.st.fills != []
    ensures g.ctx.funds.position == g.st.fills[0].funds.position
      + Share(g.st.volume, Net(g.st.fills) as real)
      - Share(g.ctx.commission, Share(g.st.volume, Buys(g.st.fills[1..]) as real))
  {
    ChainOf(g);
    PositionByBought(g);
    ChainBought(g.st.fills, Spacing(g.st), g.st.volume, g.ctx.commission);
  }

  /** The ladder in closed form. */
  lemma LadderInFull(q: real, price: real, s: real, k: int, sells: nat)
    ensures Ladder(q, price, s, k, sells)
      == q * (s * ((k * (k + 1) / 2 + sells) as real)) - q * (price * k as real)
  {
    TriangleClosed(k);
    var up, down := s * ((Triangle(k) + sells) as real), price * k as real;
    assert q * (up - down) == q * up - q * down;
  }

  lemma {:induction false} SignedSplit(fills: seq<GridFill>)
    requires fills != []
    ensures Signed(fills) == Signed(fills[..1]) + Signed(fills[1..])
    ensures Signed(fills[..1]) == if fills[0].side == Buy then 1 else -1
  {
    assert fills[..1][..0] == [];
    if |fills| > 1 {
      SignedSplit(fills[..|fills| - 1]);
      TailOfFront(fills);
      assert fills[..|fills| - 1][..1] == fills[..1];
    } else {
      assert fills[..1] == fills;
    }
  }

  lemma ChainedPrefix(fills: seq<GridFill>, n: nat, spacing: real, volume: real, commission: real)
    requires n <= |fills| && Chained(fills, spacing, volume, commission)
    ensures Chained(fills[..n], spacing, volume, commission)
  {
    if n < |fills| && |fills| > 1 {
      ChainedPrefix(fills[..|fills| - 1], n, spacing, volume, commission);
      assert fills[..|fills| - 1][..n] == fills[..n];
    } else {
      assert n == |fills| ==> fills[..n] == fills;
    }
  }

  lemma PrefixPrice(fills: seq<GridFill>, i: nat, spacing: real, volume: real, commission: real)
    requires i < |fills| && Chained(fills, spacing, volume, commission)
    ensures fills[i].price == fills[0].price - Share(spacing, Net(fills[..i + 1]) as real)
  {
    var front := fills[..i + 1];
    assert Last(front) == fills[i] && front[0] == fills[0];
    ChainedPrefix(fills, i + 1, spacing, volume, commission);
    ChainPrice(front, spacing, volume, commission);
  }

  /** The lattice. Every fill since the last placement is at the baseline minus a whole number of
      spacings: the net number of buys since the first fill. */
  lemma FillOnLattice(g: Grid, i: nat)
    requires Chain(g) && i < |g.st.fills|
    ensures g.st.fills[i].price == g.st.baseline - Share(Spacing(g.st), Net(g.st.fills[..i + 1]) as real)
  {
    ChainOf(g);
    PrefixPrice(g.st.fills, i, Spacing(g.st), g.st.volume, g.ctx.commission);
  }

  lemma RungShift(a: real, base: real, k: real, d: real, price: real)
    requires price == base - Share(a, k)
    ensures price - a * d == base - Share(a, k + d)
  {
    Distribute(a, k, d);
  }

  /** The resting pair is one rung below and one rung above the latest fill. */
  lemma RestingOnLattice(g: Grid)
    requires Agree(g) && Resting(g) && Chain(g) && g.st.fills != []
    ensures var k := Net(g.st.fills) as real;
      && (g.st.buy.Some? ==> g.st.buy.value.price == g.st.baseline - Share(Spacing(g.st), k + 1.0))
      && (g.st.sell.Some? ==> g.st.sell.value.price == g.st.baseline - Share(Spacing(g.st), k + -1.0))
  {
    var fills := g.st.fills;
    FillOnLattice(g, |fills| - 1);
    assert fills[..|fills| - 1 + 1] == fills;
    RungShift(Spacing(g.st), g.st.baseline, Net(fills) as real, 1.0, Last(fills).price);
    RungShift(Spacing(g.st), g.st.baseline, Net(fills) as real, -1.0, Last(fills).price);
  }

  /** The strategy's order balance and the side of the first fill determine the rung. */
  lemma RungOfBalance(g: Grid)
    requires Chain(g) && g.st.fills != []
    ensures Net(g.st.fills) == g.st.orderBalance - (if g.st.fills[0].side == Buy then 1 else -1)
  {
    SignedSplit(g.st.fills);
  }

  function FirstStep(fills: seq<GridFill>): int
    requires fills != []
  {
    if fills[0].side == Buy then 1 else -1
  }

  /** Rung k of the lattice of spacing s under the baseline. */
  function Rung(baseline: real, s: real, k: int): real {
    baseline - s * k as real
  }

  /** All prices of the grid are rungs that the order balance and the side of the first fill
      determine: each fill's by the balance right after it, the resting pair's by the balance now. */
  ghost predicate OnLattice(st: Strategy, s: real) {
    if st.fills == [] then
      (st.buy.Some? ==> st.buy.value.price == st.baseline) && (st.sell.Some? ==> st.sell.value.price == st.baseline)
    else
      var k := st.orderBalance - FirstStep(st.fills);
      && st.orderBalance == Signed(st.fills)
      && (forall i | 0 <= i < |st.fills| ::
            st.fills[i].price == Rung(st.baseline, s, Signed(st.fills[..i + 1]) - FirstStep(st.fills)))
      && (st.buy.Some? ==> st.buy.value.price == Rung(st.baseline, s, k + 1))
      && (st.sell.Some? ==> st.sell.value.price == Rung(st.baseline, s, k - 1))
  }

  lemma NetOfSigned(fills: seq<GridFill>)
    requires fills != []
    ensures Net(fills) == Signed(fills) - FirstStep(fills)
  {
    SignedSplit(fills);
  }

  lemma FillRung(g: Grid, i: nat)
    requires Chain(g) && i < |g.st.fills|
    ensures g.st.fills[i].price
      == Rung(g.st.baseline, Spacing(g.st), Signed(g.st.fills[..i + 1]) - FirstStep(g.st.fills))
  {
    FillOnLattice(g, i);
    NetOfSigned(g.st.fills[..i + 1]);
  }

  lemma RestingRung(g: Grid)
    requires Agree(g) && Resting(g) && Chain(g) && g.st.fills != []
    ensures var k := g.st.orderBalance - FirstStep(g.st.fills);
      && (g.st.buy.Some? ==> g.st.buy.value.price == Rung(g.st.baseline, Spacing(g.st), k + 1))
      && (g.st.sell.Some? ==> g.st.sell.value.price == Rung(g.st.baseline, Spacing(g.st), k - 1))
  {
    var k := Net(g.st.fills);
    RestingOnLattice(g);
    RungOfBalance(g);
    RungBeside(g.st.baseline, Spacing(g.st), k, 1);
    RungBeside(g.st.baseline, Spacing(g.st), k, -1);
  }

  lemma RungBeside(baseline: real, s: real, k: int, d: int)
    ensures Rung(baseline, s, k + d) == baseline - Share(s, k as real + d as real)
  {
    assert (k + d) as real == k as real + d as real;
  }

  lemma GridOnLattice(g: Grid)
    requires Consistent(g)
    ensures OnLattice(g.st, Spacing(g.st))
  {
    if g.st.fills != [] {
      forall i | 0 <= i < |g.st.fills|
        ensures g.st.fills[i].price
          == Rung(g.st.baseline, Spacing(g.st), Signed(g.st.fills[..i + 1]) - FirstStep(g.st.fills))
      {
        FillRung(g, i);
      }
      RestingRung(g);
    }
  }

  /** In every backtest with positive closes, for any funds, commission and spacing. */
  lemma EveryLattice(funds: Funds, commission: real, gridCount: nat, gridSpacing: real, rsi: Rsi, candles: seq<Candle>)
    requires gridCount > 0 && ClosePositive(candles)
    ensures Consistent(Start(funds, commission, gridCount, gridSpacing, rsi))
    ensures var st := RunCandles(Start(funds, commission, gridCount, gridSpacing, rsi), candles).st;
      OnLattice(st, Share(gridSpacing, st.baseline))
  {
    var start := Start(funds, commission, gridCount, gridSpacing, rsi);
    StartKeeps(funds, commission, gridCount, gridSpacing, rsi);
    RunKeeps(start, candles);
    GridOnLattice(RunCandles(start, candles));
  }

  /** Back on the first rung and without commission, the position is restored and every sell has
      earned one spacing per unit. */
  lemma RoundTrip(g: Grid)
    requires Chain(g) && g.st.fills != [] && Net(g.st.fills) == 0 && g.ctx.commission == 0.0
    ensures var first := g.st.fills[0].funds;
      && g.ctx.funds.position == first.position
      && g.ctx.funds.balance == first.balance + g.st.volume * Spacing(g.st) * (Sells(g.st.fills[1..]) as real)
  {
    ProfitIdentity(g);
    PositionIdentity(g);
  }

  lemma {:induction false} NetOfCounts(fills: seq<GridFill>)
    ensures Signed(fills) == Buys(fills) - Sells(fills)
  {
    if fills != [] {
      NetOfCounts(fills[..|fills| - 1]);
    }
  }

  /** The closed form of the balance: with volume q, baseline p, spacing s and rung k. */
  predicate BalanceIs(balance: real, first: real, q: real, p: real, s: real, k: int, sells: nat, fees: real) {
    balance == first - q * (p * k as real) + q * (s * ((k * (k + 1) / 2 + sells) as real)) - fees
  }

  lemma BalanceInFull(balance: real, first: real, q: real, p: real, s: real, k: int, sells: nat, fees: real)
    requires balance == first + Ladder(q, p, s, k, sells) - fees
    ensures BalanceIs(balance, first, q, p, s, k, sells, fees)
  {
    LadderInFull(q, p, s, k, sells);
  }

  /** The account in terms of the fills since the latest placement; the rung is the number of buys
      less the number of sells after the first fill. */
  ghost predicate AccountIs(f: Funds, fills: seq<GridFill>, q: real, p: real, s: real, commission: real)
    requires fills != []
  {
    var first, later := fills[0].funds, fills[1..];
    var k := Buys(later) - Sells(later);
    && BalanceIs(f.balance, first.balance, q, p, s, k, Sells(later), Share(commission, Sold(later)))
    && PositionIs(f.position, first.position, q, k, Buys(later), commission)
  }

  lemma BalanceOf(g: Grid)
    requires Chain(g) && g.st.fills != []
    ensures BalanceIs(g.ctx.funds.balance, g.st.fills[0].funds.balance, g.st.volume, g.st.baseline, Spacing(g.st),
      Net(g.st.fills), Sells(g.st.fills[1..]), Share(g.ctx.commission, Sold(g.st.fills[1..])))
  {
    ProfitIdentity(g);
    var later := g.st.fills[1..];
    BalanceInFull(g.ctx.funds.balance, g.st.fills[0].funds.balance, g.st.volume, g.st.baseline, Spacing(g.st),
      Net(g.st.fills), Sells(later), Share(g.ctx.commission, Sold(later)));
  }

  predicate PositionIs(position: real, first: real, q: real, k: int, buys: nat, commission: real) {
    position == first + q * k as real - commission * (q * buys as real)
  }

  lemma PositionOf(g: Grid)
    requires Chain(g) && g.st.fills != []
    ensures PositionIs(g.ctx.funds.position, g.st.fills[0].funds.position, g.st.volume, Net(g.st.fills),
      Buys(g.st.fills[1..]), g.ctx.commission)
  {
    PositionIdentity(g);
  }

  lemma AccountOf(g: Grid)
    requires Chain(g) && g.st.fills != []
    ensures AccountIs(g.ctx.funds, g.st.fills, g.st.volume, g.st.baseline, Spacing(g.st), g.ctx.commission)
  {
    NetOfCounts(g.st.fills[1..]);
    BalanceOf(g);
    PositionOf(g);
  }

  /** Every backtest with positive closes, whatever its funds, commission and spacing, has the
      account that its fills since the latest placement determine. */
  lemma EveryAccount(funds: Funds, commission: real, gridCount: nat, gridSpacing: real, rsi: Rsi, candles: seq<Candle>)
    requires gridCount > 0 && ClosePositive(candles)
    ensures Consistent(Start(funds, commission, gridCount, gridSpacing, rsi))
    ensures var g := RunCandles(Start(funds, commission, gridCount, gridSpacing, rsi), candles);
      g.st.fills != [] ==>
        AccountIs(g.ctx.funds, g.st.fills, g.st.volume, g.st.baseline, Share(gridSpacing, g.st.baseline), commission)
  {
    var start := Start(funds, commission, gridCount, gridSpacing, rsi);
    StartKeeps(funds, commission, gridCount, gridSpacing, rsi);
    RunKeeps(start, candles);
    var g := RunCandles(start, candles);
    if g.st.fills != [] {
      AccountOf(g);
    }
  }
}
