/** The engine and its orders as objects (wedge/backtest2/backtest_engine.h and .cc, order.h and
    .cc). Every method is tied to the transition function on values that it implements. */
module BacktestEngines {
  import opened Common
  import opened Numbers
  import opened Orders
  import opened Books
  import opened BookInvariant
  import opened PassTheorems
  import opened BookRuns
  import opened FillPrices

  /** OrderBase with its three subclasses folded into terms.kind. */
  class OrderBase {
    const listener: BacktestEngine
    const terms: Terms
    var status: OrderStatus
    var triggered: seq<nat>
    var canceled: seq<nat>
    ghost var group: Group

    constructor (listener: BacktestEngine, terms: Terms, status: OrderStatus, ghost group: Group)
      ensures this.listener == listener
      ensures Value() == Order(terms, status, [], [], group)
    {
      this.listener, this.terms, this.status := listener, terms, status;
      triggered, canceled := [], [];
      this.group := group;
    }

    ghost function Value(): Order
      reads this
    {
      Order(terms, status, triggered, canceled, group)
    }

    predicate IsStatus(s: OrderStatus)
      reads this
    {
      s == status
    }

    method AddTriggered(id: nat)
      modifies this
      ensures Value() == old(Value()).(triggered := old(triggered) + [id])
    {
      triggered := triggered + [id];
    }

    method AddCanceled(id: nat)
      modifies this
      ensures Value() == old(Value()).(canceled := old(canceled) + [id])
    {
      canceled := canceled + [id];
    }

    /** The status setter. Only Filled cascades: first to the triggered orders, then to the
        cancelled ones. */
    method SetStatus(newStatus: OrderStatus, ghost id: nat)
      requires listener.Shape() && id < |listener.orders| && listener.orders[id] == this
      requires newStatus.Filled? ==> listener.CascadeReady(id)
      modifies listener, listener.orders
      ensures listener.Shape() && listener.orders == old(listener.orders)
      ensures listener.State() == Cascade(old(listener.State()), id, newStatus)
      decreases if newStatus.Filled? then 3 else 0
    {
      ghost var before := listener.State();
      status := newStatus;
      ghost var marked := listener.State();
      assert marked == before.(orders := before.orders[id := before.orders[id].(status := newStatus)]);
      if newStatus != OrderStatus.Filled {
        return;
      }
      if triggered != [] {
        listener.OnTrigger(triggered);
      }
      assert triggered == before.orders[id].triggered && canceled == before.orders[id].canceled;
      if canceled != [] {
        listener.OnCancel(canceled);
      }
    }

    /** Fill this order if the candle reaches it. The side is fixed, so at most one of the two
        conditions of the limit and stop classes can hold. */
    method Update(candle: Candle, ghost id: nat)
      requires listener.Shape() && id < |listener.orders| && listener.orders[id] == this
      requires status.New?
      requires Reaches(terms, candle) ==> listener.CascadeReady(id)
      modifies listener, listener.orders
      ensures listener.Shape() && listener.orders == old(listener.orders)
      ensures listener.State() == Visit(old(listener.State()), id, candle)
      ensures |listener.log| == |old(listener.log)| + 1 <==>
        match terms.kind
        case Limit(price) => (terms.side == Buy && candle.low <= price) || (terms.side == Sell && price <= candle.high)
        case StopLoss(price) => (terms.side == Sell && candle.low <= price) || (terms.side == Buy
          && price <= candle.high)
        case Market => true
    {
      match terms.kind {
        case Limit(price) =>
          if terms.side == Buy && candle.low <= price {
            Execute(Buy, terms.quantity * price, candle, id);
          } else if terms.side == Sell && price <= candle.high {
            Execute(Sell, terms.quantity * price, candle, id);
          }
        case Market =>
          Execute(terms.side, terms.quantity * candle.close, candle, id);
        case StopLoss(price) =>
          if terms.side == Sell && candle.low <= price {
            Execute(Sell, terms.quantity * price, candle, id);
          } else if terms.side == Buy && price <= candle.high {
            Execute(Buy, terms.quantity * price, candle, id);
          }
      }
    }

    /** The common part of the fill branches: tell the listener, then become Filled. */
    method Execute(side: OrderSide, value: real, ghost candle: Candle, ghost id: nat)
      requires listener.Shape() && id < |listener.orders| && listener.orders[id] == this
      requires status.New? && Reaches(terms, candle) && listener.CascadeReady(id)
      requires side == terms.side && value == FillValue(terms, candle)
      modifies listener, listener.orders
      ensures listener.Shape() && listener.orders == old(listener.orders)
      ensures listener.log == old(listener.log) + [Fill(id, side, terms.quantity, value)]
      ensures listener.State() == Visit(old(listener.State()), id, candle)
    {
      ghost var before := listener.State();
      assert before.orders[id] == Value();
      listener.OnFill(side, terms.quantity, value, id);
      SetStatus(OrderStatus.Filled, id);
      CascadeAfterPayment(before, id, candle, value);
    }
  }

  /** Paying and then cascading is the fill of the transition function. */
  lemma CascadeAfterPayment(b: Book, id: nat, c: Candle, value: real)
    requires id < |b.orders| && value == FillValue(b.orders[id].terms, c)
    ensures var t := b.orders[id].terms;
      Cascade(b.(base := b.base + BaseDelta(t.side, t.quantity), quote := b.quote + QuoteDelta(t.side, value),
        log := b.log + [Fill(id, t.side, t.quantity, value)]), id, OrderStatus.Filled) == FillOrder(b, id, c)
  {
  }

  /** The status setter on values. */
  ghost function Cascade(b: Book, id: nat, s: OrderStatus): Book
    requires id < |b.orders|
  {
    var o := b.orders[id];
    var marked := b.orders[id := o.(status := s)];
    if s.Filled? then
      b.(queue := b.queue + o.triggered,
         activated := b.activated + o.triggered,
         orders := Relabel(Relabel(marked, o.triggered, New), o.canceled, OrderStatus.Canceled))
    else b.(orders := marked)
  }

  lemma RelabelMore(orders: seq<Order>, ids: seq<nat>, x: nat, s: OrderStatus)
    requires x < |orders|
    ensures Relabel(orders, ids + [x], s) == Relabel(orders, ids, s)[x := orders[x].(status := s)]
  {
  }

  /** The trigger handler's work on one order, and on a list of orders. */
  function TriggerStep(b: Book, id: nat): Book
    requires id < |b.orders|
  {
    b.(queue := b.queue + [id],
       activated := b.activated + [id],
       orders := b.orders[id := b.orders[id].(status := New)])
  }

  function TriggerAll(b: Book, ids: seq<nat>): Book {
    b.(queue := b.queue + ids, activated := b.activated + ids, orders := Relabel(b.orders, ids, New))
  }

  lemma TriggerMore(b: Book, ids: seq<nat>, k: nat)
    requires k < |ids| && ids[k] < |b.orders| && Distinct(ids)
    ensures TriggerAll(b, ids[..k]).orders[ids[k]] == b.orders[ids[k]]
    ensures TriggerStep(TriggerAll(b, ids[..k]), ids[k]) == TriggerAll(b, ids[..k + 1])
  {
    var front, id := ids[..k], ids[k];
    assert ids[..k + 1] == front + [id];
    RelabelMore(b.orders, front, id, New);
    assert b.queue + front + [id] == b.queue + (front + [id]);
    assert b.activated + front + [id] == b.activated + (front + [id]);
  }

  lemma TriggerNone(b: Book)
    ensures TriggerAll(b, []) == b && CancelOrders(b, []) == b
  {
    assert b.queue + [] == b.queue && b.activated + [] == b.activated;
    assert Relabel(b.orders, [], New) == b.orders && Relabel(b.orders, [], OrderStatus.Canceled) == b.orders;
  }

  lemma CancelMore(b: Book, ids: seq<nat>, k: nat)
    requires k < |ids| && ids[k] < |b.orders|
    ensures Cascade(CancelOrders(b, ids[..k]), ids[k], OrderStatus.Canceled) == CancelOrders(b, ids[..k + 1])
  {
    assert ids[..k + 1] == ids[..k] + [ids[k]];
    RelabelMore(b.orders, ids[..k], ids[k], OrderStatus.Canceled);
  }

  lemma CancelOne(b: Book, id: nat)
    requires id < |b.orders|
    ensures Cascade(b, id, OrderStatus.Canceled) == CancelOrders(b, [id])
  {
    assert Relabel(b.orders, [id], OrderStatus.Canceled)
      == b.orders[id := b.orders[id].(status := OrderStatus.Canceled)];
  }

  lemma CascadePossible(b: Book, id: nat, c: Candle)
    requires Wired(b.orders) && id < |b.orders|
    ensures Distinct(b.orders[id].triggered)
    ensures forall p | p in b.orders[id].triggered :: p < |b.orders| && p != id
    ensures forall y | y in b.orders[id].canceled :: y < |b.orders| && y != id
    ensures AssertHolds(b, id, c) && Ready(b.orders[id], c) ==>
      forall p | p in b.orders[id].triggered :: b.orders[p].status.PendingNew?
  {
    TriggeredIsTriggers(b.orders, id);
    EdgesOf(b.orders);
    forall p | p in b.orders[id].triggered
      ensures p < |b.orders| && p != id
    {
      LegInTable(b.orders, id, p);
    }
  }

  /** One iteration of the queue loop on the way to its result. */
  lemma RunStep(b: Book, i: nat, c: Candle, result: Book)
    requires WellFormed(b) && i < |b.queue| && Run(b, i, c) == result && AssertFree(b, i, c)
    ensures var id := b.queue[i];
      && id < |b.orders| && id in b.queue && i < |b.orders| && AssertHolds(b, id, c)
      && var r := Visit(b, id, c);
         && WellFormed(r) && i + 1 <= |r.queue| && |r.orders| == |b.orders|
         && Run(r, i + 1, c) == result && AssertFree(r, i + 1, c)
  {
    RunUnfold(b, i, c);
    AssertFreeUnfold(b, i, c);
  }

  class BacktestEngine {
    var base: real
    var quote: real
    var newOrders: seq<nat>
    var orderLists: seq<seq<nat>>
    var orders: seq<OrderBase>
    ghost var activated: seq<nat>
    ghost var log: seq<Fill>

    constructor (base: real, quote: real)
      ensures Valid() && State() == Opened(base, quote)
    {
      this.base, this.quote := base, quote;
      newOrders, orderLists, orders := [], [], [];
      activated, log := [], [];
      new;
      OpenedInv(base, quote);
      assert State() == Opened(base, quote);
    }

    /** The engine owns every order of its table, each once. */
    ghost predicate Shape()
      reads this, orders
    {
      && (forall i, j | 0 <= i < j < |orders| :: orders[i] != orders[j])
      && (forall i | 0 <= i < |orders| :: orders[i].listener == this)
    }

    ghost function Table(): (t: seq<Order>)
      reads this, orders
      ensures |t| == |orders| && forall i | 0 <= i < |orders| :: t[i] == orders[i].Value()
    {
      seq(|orders|, i requires 0 <= i < |orders| reads this, orders => orders[i].Value())
    }

    ghost function State(): Book
      reads this, orders
    {
      Book(base, quote, newOrders, orderLists, Table(), activated, log)
    }

    /** Between calls of any client: the invariant of every run. */
    ghost predicate Coherent()
      reads this, orders
    {
      Shape() && Inv(State())
    }

    /** Between calls of a client that follows the protocol: moreover, no pending order is out of step
        with a live working order. */
    ghost predicate Valid()
      reads this, orders
    {
      Coherent() && TriggerSafe(State())
    }

    /** Order id can fill: its edges lead to other orders of the table, and what it triggers is
        still PendingNew, as the trigger handler asserts. */
    ghost predicate CascadeReady(id: nat)
      reads this, orders
    {
      && id < |orders|
      && Distinct(orders[id].triggered)
      && (forall p | p in orders[id].triggered :: p < |orders| && p != id && orders[p].status.PendingNew?)
      && (forall y | y in orders[id].canceled :: y < |orders| && y != id)
    }

    // ---------- listener interface ----------

    method OnFill(side: OrderSide, amount: real, value: real, ghost id: nat)
      modifies this`base, this`quote, this`log
      ensures side == Buy ==> base == old(base) + amount - 0.0001 * amount && quote == old(quote) - value
      ensures side == Sell ==> base == old(base) - amount && quote == old(quote) + value - 0.0001 * value
      ensures State() == old(State()).(
        base := old(base) + BaseDelta(side, amount),
        quote := old(quote) + QuoteDelta(side, value),
        log := old(log) + [Fill(id, side, amount, value)])
    {
      match side {
        case Buy =>
          base := base + amount * (1.0 - COMMISSION);
          quote := quote - value;
        case Sell =>
          base := base - amount;
          quote := quote + value * (1.0 - COMMISSION);
      }
      log := log + [Fill(id, side, amount, value)];
      assert Table() == old(Table());
    }

    method OnTrigger(ids: seq<nat>)
      requires Shape() && Distinct(ids)
      requires forall p | p in ids :: p < |orders| && orders[p].status.PendingNew?
      modifies this, orders
      ensures Shape() && orders == old(orders)
      ensures State() == TriggerAll(old(State()), ids)
      decreases 2
    {
      ghost var before := State();
      TriggerNone(before);
      var k := 0;
      while k < |ids|
        invariant 0 <= k <= |ids|
        invariant Shape() && orders == old(orders)
        invariant State() == TriggerAll(before, ids[..k])
      {
        assert ids[k] in ids;
        TriggerMore(before, ids, k);
        TriggerOne(ids[k]);
        k := k + 1;
      }
      assert ids[..k] == ids;
    }

    /** The body of the loop. */
    method TriggerOne(id: nat)
      requires Shape() && id < |orders| && State().orders[id].status.PendingNew?
      modifies this, orders
      ensures Shape() && orders == old(orders)
      ensures State() == TriggerStep(old(State()), id)
      decreases 1
    {
      assert orders[id].IsStatus(OrderStatus.PendingNew);
      orders[id].SetStatus(OrderStatus.New, id);
      newOrders := newOrders + [id];
      activated := activated + [id];
      assert Table() == old(Table())[id := old(Table())[id].(status := New)];
    }

    method OnCancel(ids: seq<nat>)
      requires Shape() && forall x | x in ids :: x < |orders|
      modifies this, orders
      ensures Shape() && orders == old(orders)
      ensures State() == CancelOrders(old(State()), ids)
      decreases 1
    {
      ghost var before := State();
      TriggerNone(before);
      var k := 0;
      while k < |ids|
        invariant 0 <= k <= |ids|
        invariant Shape() && orders == old(orders)
        invariant State() == CancelOrders(before, ids[..k])
      {
        assert ids[k] in ids;
        CancelMore(before, ids, k);
        orders[ids[k]].SetStatus(OrderStatus.Canceled, ids[k]);
        k := k + 1;
      }
      assert ids[..k] == ids;
    }

    // ---------- the pass ----------

    /** The pass is possible on every candle on which the trigger handler's assertion does not fail;
        after a client that follows the protocol, that is every candle. */
    method UpdateNewOrders(candle: Candle)
      requires Coherent() && AssertFree(State(), 0, candle)
      modifies this, orders
      ensures Coherent() && orders == old(orders)
      ensures State() == Pass(old(State()), candle)
      ensures old(Valid()) ==> Valid()
    {
      ghost var before := State();
      RunQueue(candle);
      RunKeepsCore(before, 0, candle);
      Compact();
      StepKept(before, Tick(candle));
    }

    /** The queue loop, over a queue that grows while it is walked. */
    method RunQueue(candle: Candle)
      requires Shape() && WellFormed(State()) && AssertFree(State(), 0, candle)
      modifies this, orders
      ensures Shape() && orders == old(orders)
      ensures State() == Run(old(State()), 0, candle)
    {
      ghost var result := Run(State(), 0, candle);
      var i := 0;
      while i < |newOrders|
        invariant 0 <= i <= |newOrders|
        invariant Shape() && orders == old(orders)
        invariant WellFormed(State()) && Run(State(), i, candle) == result && AssertFree(State(), i, candle)
        decreases |orders| - i
      {
        RunStep(State(), i, candle, result);
        VisitOrder(newOrders[i], candle);
        i := i + 1;
      }
    }

    /** The body of the queue loop. */
    method VisitOrder(id: nat, candle: Candle)
      requires Shape() && Wired(State().orders) && AssertHolds(State(), id, candle)
      modifies this, orders
      ensures Shape() && orders == old(orders)
      ensures State() == Visit(old(State()), id, candle)
    {
      CascadePossible(State(), id, candle);
      var order := orders[id];
      assert State().orders[id] == order.Value();
      if order.IsStatus(New) {
        order.Update(candle, id);
      }
    }

    /** remove_if and erase: keep the live entries of the queue, in order. */
    method Compact()
      requires Shape() && QueueSound(State())
      modifies this`newOrders
      ensures State() == old(State()).(queue := LiveOnly(old(newOrders), old(Table())))
    {
      var kept: seq<nat> := [];
      var k := 0;
      while k < |newOrders|
        invariant 0 <= k <= |newOrders|
        invariant newOrders == old(newOrders) && Table() == old(Table())
        invariant kept == LiveOnly(newOrders[..k], Table())
      {
        var id := newOrders[k];
        assert id in newOrders;
        LiveOnlyConcat(newOrders[..k], [id], Table());
        assert newOrders[..k + 1] == newOrders[..k] + [id];
        assert Table()[id] == orders[id].Value();
        if orders[id].IsStatus(New) {
          kept := kept + [id];
        }
        k := k + 1;
      }
      assert newOrders[..k] == newOrders;
      newOrders := kept;
      assert Table() == old(Table());
    }

    // ---------- placing orders ----------

    /** add_base_order: the new order gets the next id, and is queued if it is live. */
    method AddOrder(terms: Terms, status: OrderStatus) returns (id: nat)
      requires Shape()
      modifies this
      ensures Shape() && id == |old(orders)| && |orders| == id + 1 && orders[..id] == old(orders) && fresh(orders[id])
      ensures State() == Plus(old(State()), terms, status)
    {
      ghost var before := State();
      id := |orders|;
      var order := new OrderBase(this, terms, status, Single(id));
      if order.IsStatus(New) {
        newOrders := newOrders + [id];
        activated := activated + [id];
      }
      orders := orders + [order];
      assert Table() == before.orders + [FreshOrder(terms, status, Single(id), id)];
    }

    method AddOrderList(list: seq<nat>) returns (id: nat)
      modifies this`orderLists
      ensures id == |old(orderLists)| && State() == old(State()).(lists := old(orderLists) + [list])
    {
      id := |orderLists|;
      orderLists := orderLists + [list];
      assert Table() == old(Table());
    }

    method AddTriggered(working: nat, pending: nat, ghost g: Group)
      requires Shape() && working < |orders|
      modifies orders[working]
      ensures State() == TriggerEdge(old(State()), working, pending, g)
    {
      orders[working].AddTriggered(pending);
      orders[working].group := g;
      assert Table() == TriggerEdge(old(State()), working, pending, g).orders;
    }

    /** Two orders cancel each other. */
    method AddSiblings(x: nat, y: nat, ghost g: Group)
      requires Shape() && x < |orders| && y < |orders|
      modifies orders[x], orders[y]
      ensures State() == CancelEdge(CancelEdge(old(State()), x, y, g), y, x, g)
    {
      AddCanceled(x, y, g);
      AddCanceled(y, x, g);
    }

    /** One order triggers two. */
    method AddLegs(working: nat, x: nat, y: nat, ghost g: Group)
      requires Shape() && working < |orders|
      modifies orders[working]
      ensures State() == TriggerEdge(TriggerEdge(old(State()), working, x, g), working, y, g)
    {
      AddTriggered(working, x, g);
      AddTriggered(working, y, g);
    }

    method AddCanceled(id: nat, sibling: nat, ghost g: Group)
      requires Shape() && id < |orders|
      modifies orders[id]
      ensures State() == CancelEdge(old(State()), id, sibling, g)
    {
      orders[id].AddCanceled(sibling);
      orders[id].group := g;
      assert Table() == CancelEdge(old(State()), id, sibling, g).orders;
    }

    ghost method JoinGroup(id: nat, g: Group)
      requires Shape() && id < |orders|
      modifies orders[id]
      ensures State() == Join(old(State()), id, g)
    {
      orders[id].group := g;
      assert Table() == Join(old(State()), id, g).orders;
    }

    method AddOto(working: nat, pending: nat) returns (id: nat)
      requires Shape() && working < |orders| && pending < |orders|
      modifies this`orderLists, orders[working], orders[pending]
      ensures Shape() && id == |old(orderLists)|
      ensures State() == WireOto(old(State()), working, pending)
    {
      ghost var g := Oto(working, pending);
      AddTriggered(working, pending, g);
      JoinGroup(pending, g);
      id := AddOrderList([working, pending]);
    }

    method AddOco(above: nat, below: nat) returns (id: nat)
      requires Shape() && above < |orders| && below < |orders|
      modifies this`orderLists, orders[above], orders[below]
      ensures Shape() && id == |old(orderLists)|
      ensures State() == WireOco(old(State()), above, below)
    {
      ghost var g := Oco(above, below);
      AddSiblings(above, below, g);
      id := AddOrderList([above, below]);
    }

    method AddOtoco(working: nat, pendingAbove: nat, pendingBelow: nat) returns (id: nat)
      requires Shape() && working < |orders| && pendingAbove < |orders| && pendingBelow < |orders|
      modifies this`orderLists, orders[working], orders[pendingAbove], orders[pendingBelow]
      ensures Shape() && id == |old(orderLists)|
      ensures State() == WireOtoco(old(State()), working, pendingAbove, pendingBelow)
    {
      ghost var g := Otoco(working, pendingAbove, pendingBelow);
      AddLegs(working, pendingAbove, pendingBelow, g);
      AddSiblings(pendingAbove, pendingBelow, g);
      id := AddOrderList([working, pendingAbove, pendingBelow]);
    }

    // ---------- broker interface ----------

    /** A cancelled order need not be live, nor the client careful; but the engine stays Valid exactly
        when the client follows the protocol. */
    method ExecuteCancelOrder(id: nat)
      requires Coherent() && id < |orders|
      modifies this, orders
      ensures Coherent() && orders == old(orders) && State() == Step(old(State()), Cancel(id))
      ensures old(Valid()) ==> (Valid() <==> Protocol(old(State()), Cancel(id)))
    {
      ghost var before := State();
      orders[id].SetStatus(OrderStatus.Canceled, id);
      CancelOne(before, id);
      StepKept(before, Cancel(id));
    }

    method ExecuteCancelOrderList(list: nat)
      requires Coherent() && list < |orderLists|
      modifies this, orders
      ensures Coherent() && orders == old(orders) && State() == Step(old(State()), CancelList(list))
      ensures old(Valid()) ==> Valid()
    {
      ghost var before := State();
      ListWithin(before, list);
      OnCancel(orderLists[list]);
      StepKept(before, CancelList(list));
    }

    method ExecuteNewOrder(order: Terms) returns (id: nat)
      requires Coherent()
      modifies this
      ensures Coherent() && id == |old(orders)| && State() == Step(old(State()), Place(order))
      ensures old(Valid()) ==> Valid()
    {
      ghost var before := State();
      id := AddOrder(order, New);
      StepKept(before, Place(order));
    }

    method ExecuteNewOrderList(list: NewOrderList) returns (id: nat)
      requires Coherent()
      modifies this
      ensures Coherent() && id == |old(orderLists)| && State() == Step(old(State()), ListCommand(list))
      ensures ListCreated(State(), |old(orders)|, list)
      ensures old(Valid()) ==> Valid()
    {
      ghost var before := State();
      match list {
        case NewOto(working, pending) => id := PlaceOto(working, pending);
        case NewOco(above, below) => id := PlaceOco(above, below, PendingNew);
        case NewOtoco(working, above, below) => id := PlaceOtoco(working, above, below);
      }
      StepKept(before, ListCommand(list));
      ListCreates(before, list);
    }

    /** add_order twice and add_oco, as a client of the public interface may call them. */
    method PlaceLiveOco(above: Terms, below: Terms) returns (id: nat)
      requires Coherent()
      modifies this
      ensures Coherent() && id == |old(orderLists)| && State() == Step(old(State()), Command.PlaceLiveOco(above, below))
      ensures old(Valid()) ==> Valid()
    {
      ghost var before := State();
      id := PlaceOco(above, below, New);
      StepKept(before, Command.PlaceLiveOco(above, below));
    }

    method PlaceOto(working: Terms, pending: Terms) returns (id: nat)
      requires Shape()
      modifies this
      ensures Shape() && id == |old(orderLists)| && State() == WithOto(old(State()), working, pending)
    {
      ghost var before := State();
      var w := AddOrder(working, New);
      var p := AddOrder(pending, PendingNew);
      id := AddOto(w, p);
      OtoWired(before, working, pending);
    }

    method PlaceOco(above: Terms, below: Terms, belowStatus: OrderStatus) returns (id: nat)
      requires Shape()
      modifies this
      ensures Shape() && id == |old(orderLists)| && State() == WithOco(old(State()), above, below, belowStatus)
    {
      ghost var before := State();
      var x := AddOrder(above, New);
      var y := AddOrder(below, belowStatus);
      id := AddOco(x, y);
      OcoWired(before, above, below, belowStatus);
    }

    method PlaceOtoco(working: Terms, above: Terms, below: Terms) returns (id: nat)
      requires Shape()
      modifies this
      ensures Shape() && id == |old(orderLists)| && State() == WithOtoco(old(State()), working, above, below)
    {
      ghost var before := State();
      var w := AddOrder(working, New);
      var x := AddOrder(above, PendingNew);
      var y := AddOrder(below, PendingNew);
      id := AddOtoco(w, x, y);
      OtocoWired(before, working, above, below);
    }
  }

  /** What a command keeps, in one place for the methods above. */
  lemma StepKept(b: Book, m: Command)
    requires Inv(b) && Enabled(b, m)
    ensures Inv(Step(b, m))
    ensures TriggerSafe(b) ==> (TriggerSafe(Step(b, m)) <==> Protocol(b, m))
  {
    StepKeepsInv(b, m);
    if TriggerSafe(b) {
      StepSafety(b, m);
    }
  }

  lemma ListWithin(b: Book, l: nat)
    requires ListsSound(b) && l < |b.lists|
    ensures forall x | x in b.lists[l] :: x < |b.orders|
  {
    assert WholeGroup(b.orders, b.lists[l]);
  }

  /** The alternatives of execute(NewOrderList). */
  datatype NewOrderList =
    | NewOto(working: Terms, pending: Terms)
    | NewOco(above: Terms, below: Terms)
    | NewOtoco(working: Terms, above: Terms, below: Terms)

  function ListCommand(list: NewOrderList): Command {
    match list
    case NewOto(w, p) => Command.PlaceOto(w, p)
    case NewOco(x, y) => Command.PlaceOco(x, y)
    case NewOtoco(w, x, y) => Command.PlaceOtoco(w, x, y)
  }

  /** The last orders of the table, from n on, are those of the list, and its first order is live. */
  ghost predicate ListCreated(b: Book, n: nat, list: NewOrderList) {
    match list
    case NewOto(w, p) => |b.orders| == n + 2 && Created(b, n, w, New) && Created(b, n + 1, p, PendingNew)
    case NewOco(a, y) => |b.orders| == n + 2 && Created(b, n, a, New) && Created(b, n + 1, y, PendingNew)
    case NewOtoco(w, a, y) =>
      |b.orders| == n + 3 && Created(b, n, w, New) && Created(b, n + 1, a, PendingNew)
        && Created(b, n + 2, y, PendingNew)
  }

  lemma ListCreates(b: Book, list: NewOrderList)
    requires Inv(b)
    ensures ListCreated(Step(b, ListCommand(list)), |b.orders|, list)
  {
    PlacementCreates(b, ListCommand(list));
  }

  /** add_order on values. */
  function Plus(b: Book, t: Terms, status: OrderStatus): Book {
    var n := |b.orders|;
    Append(b, [FreshOrder(t, status, Single(n), n)], if status.New? then [n] else [], [])
  }

  lemma PlusLists(b: Book, t: Terms, status: OrderStatus)
    ensures Plus(b, t, status).lists == b.lists
    ensures !status.New? ==> Plus(b, t, status).queue == b.queue && Plus(b, t, status).activated == b.activated
  {
    assert b.lists + [] == b.lists && b.queue + [] == b.queue && b.activated + [] == b.activated;
  }

  lemma OtoWired(b: Book, w: Terms, p: Terms)
    ensures var n := |b.orders|;
      WireOto(Plus(Plus(b, w, New), p, PendingNew), n, n + 1) == WithOto(b, w, p)
  {
    var n := |b.orders|;
    var r := WireOto(Plus(Plus(b, w, New), p, PendingNew), n, n + 1);
    PlusLists(b, w, New);
    PlusLists(Plus(b, w, New), p, PendingNew);
    assert r.orders[n] == FreshOrder(w, New, Oto(n, n + 1), n);
    assert r.orders[n + 1] == FreshOrder(p, PendingNew, Oto(n, n + 1), n + 1);
    assert r.orders == b.orders + [r.orders[n], r.orders[n + 1]];
  }

  lemma OcoWired(b: Book, x: Terms, y: Terms, status: OrderStatus)
    ensures var n := |b.orders|;
      WireOco(Plus(Plus(b, x, New), y, status), n, n + 1) == WithOco(b, x, y, status)
  {
    var n := |b.orders|;
    var r := WireOco(Plus(Plus(b, x, New), y, status), n, n + 1);
    PlusLists(b, x, New);
    PlusLists(Plus(b, x, New), y, status);
    assert r.orders[n] == FreshOrder(x, New, Oco(n, n + 1), n);
    assert r.orders[n + 1] == FreshOrder(y, status, Oco(n, n + 1), n + 1);
    assert r.orders == b.orders + [r.orders[n], r.orders[n + 1]];
    assert b.queue + [n] + [n + 1] == b.queue + [n, n + 1];
    assert b.activated + [n] + [n + 1] == b.activated + [n, n + 1];
  }

  /** The edges among three new orders at the end of the table. */
  lemma LegsWired(b: Book, front: seq<Order>, w: Order, x: Order, y: Order, p: nat, q: nat, g: Group)
    requires b.orders == front + [w, x, y]
    ensures TriggerEdge(TriggerEdge(b, |front|, p, g), |front|, q, g)
      == b.(orders := front + [w.(triggered := w.triggered + [p] + [q], group := g), x, y])
  {
  }

  lemma SiblingsWired(b: Book, front: seq<Order>, w: Order, x: Order, y: Order, g: Group)
    requires b.orders == front + [w, x, y]
    ensures var i, j := |front| + 1, |front| + 2;
      CancelEdge(CancelEdge(b, i, j, g), j, i, g)
        == b.(orders := front
             + [w, x.(canceled := x.canceled + [j], group := g), y.(canceled := y.canceled + [i], group := g)])
  {
  }

  lemma ThreeAdded(b: Book, w: Terms, x: Terms, y: Terms)
    ensures var n := |b.orders|;
      Plus(Plus(Plus(b, w, New), x, PendingNew), y, PendingNew)
        == Append(b, [FreshOrder(w, New, Single(n), n), FreshOrder(x, PendingNew, Single(n + 1), n + 1),
             FreshOrder(y, PendingNew, Single(n + 2), n + 2)], [n], [])
  {
    var n := |b.orders|;
    var b1 := Plus(b, w, New);
    PlusLists(b, w, New);
    PlusLists(b1, x, PendingNew);
    PlusLists(Plus(b1, x, PendingNew), y, PendingNew);
  }

  lemma OtocoWired(b: Book, w: Terms, x: Terms, y: Terms)
    ensures var n := |b.orders|;
      WireOtoco(Plus(Plus(Plus(b, w, New), x, PendingNew), y, PendingNew), n, n + 1, n + 2) == WithOtoco(b, w, x, y)
  {
    var n := |b.orders|;
    var g := Otoco(n, n + 1, n + 2);
    ThreeAdded(b, w, x, y);
    var b3 := Plus(Plus(Plus(b, w, New), x, PendingNew), y, PendingNew);
    var w0, x0, y0 := FreshOrder(w, New, Single(n), n), FreshOrder(x, PendingNew, Single(n + 1), n + 1),
      FreshOrder(y, PendingNew, Single(n + 2), n + 2);
    var w1 := FreshOrder(w, New, g, n);
    var x1, y1 := FreshOrder(x, PendingNew, g, n + 1), FreshOrder(y, PendingNew, g, n + 2);
    assert w0.triggered + [n + 1] + [n + 2] == w1.triggered;
    assert x0.canceled + [n + 2] == x1.canceled && y0.canceled + [n + 1] == y1.canceled;
    LegsWired(b3, b.orders, w0, x0, y0, n + 1, n + 2, g);
    SiblingsWired(b3.(orders := b.orders + [w1, x0, y0]), b.orders, w1, x0, y0, g);
  }
}
