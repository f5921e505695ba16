/** The bracket-placing client of the contingent-order engine (wedge/strategy2/strategy001.h). */
module Strategy001Client {
  import opened Common
  import opened Orders
  import opened Books
  import opened BacktestEngines
  import opened RangeIndicator

  /** Buy one at the limit; then sell one at 0.05% below as a stop or 0.05% above as a limit. */
  function Bracket(limit: real): Command {
    Command.PlaceOtoco(
      Terms(Buy, Limit(limit), 1.0),
      Terms(Sell, StopLoss(limit * (1.0 - 0.0005)), 1.0),
      Terms(Sell, Limit(limit * (1.0 + 0.0005)), 1.0))
  }

  datatype OpenOrder = OpenOrder(id: nat, status: OrderStatus)
  datatype OpenList = OpenList(listId: nat, orders: seq<OpenOrder>)
  datatype ScheduleTaskEvent = ScheduleTaskEvent(candle: Candle, openLists: seq<OpenList>)

  /** none_of ... kFilled */
  predicate IsNewOrder(orders: seq<OpenOrder>) {
    forall i | 0 <= i < |orders| :: !orders[i].status.Filled?
  }

  /** An entry of the event shows a list of the engine as it is. */
  ghost predicate Accurate(b: Book, l: OpenList) {
    && l.listId < |b.lists|
    && |l.orders| == |b.lists[l.listId]|
    && forall i | 0 <= i < |l.orders| ::
         && l.orders[i].id == b.lists[l.listId][i] < |b.orders|
         && l.orders[i].status == b.orders[b.lists[l.listId][i]].status
  }

  /** What one entry of the event makes the strategy do. */
  function AfterEntry(b: Book, l: OpenList): Book {
    if l.listId < |b.lists| && IsNewOrder(l.orders) then CancelOrders(b, b.lists[l.listId]) else b
  }

  /** The book after the cancellations of one event. */
  function AfterCancels(b: Book, lists: seq<OpenList>): Book
    decreases |lists|
  {
    if lists == [] then b else AfterCancels(AfterEntry(b, lists[0]), lists[1..])
  }

  lemma AfterCancelsStep(b: Book, lists: seq<OpenList>, i: nat)
    requires i < |lists|
    ensures AfterCancels(b, lists[i..]) == AfterCancels(AfterEntry(b, lists[i]), lists[i + 1..])
  {
    assert lists[i..][1..] == lists[i + 1..];
  }

  /** The strategy withdraws only lists nothing of which has filled: a Filled order stays so. */
  lemma FilledStaysFilled(b: Book, lists: seq<OpenList>, x: nat)
    requires forall i | 0 <= i < |lists| :: lists[i].listId < |b.lists| && Accurate(b, lists[i])
    requires x < |b.orders| && b.orders[x].status.Filled?
    ensures |AfterCancels(b, lists).orders| == |b.orders| && AfterCancels(b, lists).orders[x] == b.orders[x]
  {
    forall i | 0 <= i < |lists| && IsNewOrder(lists[i].orders)
      ensures x !in b.lists[lists[i].listId]
    {
      var l := lists[i];
      assert Accurate(b, l);
      forall k | 0 <= k < |l.orders|
        ensures b.lists[l.listId][k] != x
      {
        assert !l.orders[k].status.Filled?;
      }
    }
    CancelsSpare(b, lists, x);
  }

  lemma {:induction false} CancelsSpare(b: Book, lists: seq<OpenList>, x: nat)
    requires forall i | 0 <= i < |lists| :: lists[i].listId < |b.lists|
    requires forall i | 0 <= i < |lists| && IsNewOrder(lists[i].orders) :: x !in b.lists[lists[i].listId]
    requires x < |b.orders|
    ensures |AfterCancels(b, lists).orders| == |b.orders| && AfterCancels(b, lists).orders[x] == b.orders[x]
    decreases |lists|
  {
    if lists != [] {
      CancelsSpare(AfterEntry(b, lists[0]), lists[1..], x);
    }
  }

  class Strategy001 {
    const broker: BacktestEngine
    const range: Range
    const k: real := 0.1

    constructor (broker: BacktestEngine)
      ensures this.broker == broker && k == 0.1
      ensures fresh(range) && fresh(range.high) && fresh(range.low) && Valid() && range.highs == []
    {
      this.broker := broker;
      range := new Range(24);
    }

    ghost predicate Valid()
      reads range, range.high, range.low
    {
      range.Valid() && range.high.Length == 24
    }

    /** Withdraw the open lists that have not started, then place the next bracket below the open
        price. The event is an accurate snapshot of the engine. */
    method OnEvent(event: ScheduleTaskEvent)
      requires broker.Coherent() && Valid()
      requires forall i | 0 <= i < |event.openLists| ::
        event.openLists[i].listId < |broker.orderLists| && Accurate(broker.State(), event.openLists[i])
      modifies broker, broker.orders, range, range.high, range.low
      ensures broker.Coherent() && Valid() && (old(broker.Valid()) ==> broker.Valid())
      ensures range.highs == old(range.highs) + [event.candle.high]
        && range.lows == old(range.lows) + [event.candle.low]
      ensures broker.State() == WithBracket(AfterCancels(old(broker.State()), event.openLists),
        LimitPrice(event.candle, RangeOf(24, range.highs, range.lows), k))
      ensures BracketPlaced(broker.State(), |old(broker.orders)|,
        LimitPrice(event.candle, RangeOf(24, range.highs, range.lows), 0.1))
    {
      Withdraw(event.openLists);
      var limit := NextLimit(event.candle);
      PlaceBracket(limit);
    }

    /** Take the candle into the range and derive the limit price; the engine is not concerned. */
    method NextLimit(candle: Candle) returns (limit: real)
      requires broker.Shape() && range.Valid()
      modifies range, range.high, range.low
      ensures broker.Shape() && broker.State() == old(broker.State()) && broker.orders == old(broker.orders)
      ensures range.Valid() && range.highs == old(range.highs) + [candle.high]
        && range.lows == old(range.lows) + [candle.low]
      ensures limit == LimitPrice(candle, RangeOf(range.high.Length, range.highs, range.lows), k)
    {
      range.Update(candle);
      var width := range.Value();
      limit := LimitPrice(candle, width, k);
    }

    method Withdraw(lists: seq<OpenList>)
      requires broker.Coherent()
      requires forall i | 0 <= i < |lists| :: lists[i].listId < |broker.orderLists|
      modifies broker, broker.orders
      ensures broker.Coherent() && broker.orders == old(broker.orders) && (old(broker.Valid()) ==> broker.Valid())
      ensures broker.State() == AfterCancels(old(broker.State()), lists)
    {
      ghost var result := AfterCancels(broker.State(), lists);
      assert lists[0..] == lists;
      var i := 0;
      while i < |lists|
        invariant 0 <= i <= |lists|
        invariant broker.Coherent() && broker.orders == old(broker.orders)
        invariant old(broker.Valid()) ==> broker.Valid()
        invariant broker.orderLists == old(broker.orderLists)
        invariant AfterCancels(broker.State(), lists[i..]) == result
      {
        AfterCancelsStep(broker.State(), lists, i);
        WithdrawOne(lists[i]);
        i := i + 1;
      }
      assert lists[i..] == [];
    }

    /** The body of the loop. */
    method WithdrawOne(list: OpenList)
      requires broker.Coherent() && list.listId < |broker.orderLists|
      modifies broker, broker.orders
      ensures broker.Coherent() && broker.orders == old(broker.orders) && (old(broker.Valid()) ==> broker.Valid())
      ensures broker.State() == AfterEntry(old(broker.State()), list) && broker.orderLists == old(broker.orderLists)
    {
      if IsNewOrder(list.orders) {
        broker.ExecuteCancelOrderList(list.listId);
      }
    }

    method PlaceBracket(limit: real)
      requires broker.Coherent()
      modifies broker
      ensures broker.Coherent() && (old(broker.Valid()) ==> broker.Valid())
      ensures broker.State() == WithBracket(old(broker.State()), limit)
      ensures BracketPlaced(broker.State(), |old(broker.orders)|, limit)
    {
      var list := NewOtoco(
        Terms(Buy, Limit(limit), 1.0),
        Terms(Sell, StopLoss(limit * (1.0 - 0.0005)), 1.0),
        Terms(Sell, Limit(limit * (1.0 + 0.0005)), 1.0));
      assert ListCommand(list) == Bracket(limit);
      BracketStep(broker.State(), limit);
      BracketIsPlaced(broker.State(), limit);
      var id := broker.ExecuteNewOrderList(list);
    }
  }

  /** From order n on: a limit buy of one at the price, live, and pending behind it a stop-loss sell of one
      at 0.9995 and a limit sell of one at 1.0005 of it. */
  ghost predicate BracketPlaced(b: Book, n: nat, price: real) {
    && |b.orders| == n + 3
    && b.orders[n].terms == Terms(Buy, Limit(price), 1.0) && b.orders[n].status == New
    && b.orders[n + 1].terms == Terms(Sell, StopLoss(price * 0.9995), 1.0) && b.orders[n + 1].status == PendingNew
    && b.orders[n + 2].terms == Terms(Sell, Limit(price * 1.0005), 1.0) && b.orders[n + 2].status == PendingNew
    && b.orders[n].triggered == [n + 1, n + 2]
  }

  lemma BracketIsPlaced(b: Book, limit: real)
    ensures BracketPlaced(WithBracket(b, limit), |b.orders|, limit)
  {
  }

  /** The price of the next bracket: a tenth of the range below the open. Once 24 candles are in, that is
      the range of the latest 24; before, on positive prices, it is the highest high. On sound candles the
      price is never above the open. */
  lemma LimitPriceInFull(c: Candle, highs: seq<real>, lows: seq<real>)
    requires 0 < |highs| == |lows|
    ensures var price := LimitPrice(c, RangeOf(24, highs, lows), 0.1);
      && (|highs| >= 24 ==>
            price == c.open - (MaxOf(highs[|highs| - 24..]) - MinOf(lows[|lows| - 24..])) / 10.0)
      && ((forall i | 0 <= i < |lows| :: 0.0 < lows[i] <= highs[i]) ==>
            (|highs| < 24 ==> price == c.open - MaxOf(highs) / 10.0) && price <= c.open)
  {
    if |highs| >= 24 {
      FullRange(24, highs, lows);
      var hi, lo := highs[|highs| - 24..], lows[|lows| - 24..];
      assert hi[0] == highs[|highs| - 24] && lo[0] == lows[|lows| - 24];
      assert hi[0] <= MaxOf(hi) && MinOf(lo) <= lo[0];
    } else if forall i | 0 <= i < |lows| :: 0.0 < lows[i] <= highs[i] {
      EarlyRange(24, highs, lows);
      assert highs[0] in highs && 0.0 < lows[0] <= highs[0];
    }
  }

  /** Below the open price by a share of the range. */
  function LimitPrice(candle: Candle, width: real, k: real): real {
    candle.open - width * k
  }

  function WithBracket(b: Book, limit: real): Book {
    var m := Bracket(limit);
    WithOtoco(b, m.working, m.above, m.below)
  }

  lemma BracketStep(b: Book, limit: real)
    requires WellFormed(b)
    ensures Step(b, Bracket(limit)) == WithBracket(b, limit)
  {
  }
}
