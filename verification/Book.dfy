/** Orders and their fill rules (wedge/backtest2/order.h, order.cc). */
module Orders {
  import opened Common

  /** The three order classes; a market order carries no price. */
  datatype Kind = Limit(price: real) | Market | StopLoss(price: real)

  datatype Terms = Terms(side: OrderSide, kind: Kind, quantity: real)

  /** The fill condition of each order class. */
  predicate Reaches(t: Terms, c: Candle) {
    match t.kind
    case Limit(p) => if t.side.Buy? then c.low <= p else p <= c.high
    case Market => true
    case StopLoss(p) => if t.side.Sell? then c.low <= p else p <= c.high
  }

  /** The price a reached order trades at. */
  function FillPrice(t: Terms, c: Candle): real {
    if t.kind.Market? then c.close else t.kind.price
  }

  /** The quote value that a fill moves. */
  function FillValue(t: Terms, c: Candle): real {
    t.quantity * FillPrice(t, c)
  }

  const COMMISSION: real := 0.0001

  /** Base asset gained by a fill of the given side and size. */
  function BaseDelta(side: OrderSide, base: real): real {
    if side.Buy? then base * (1.0 - COMMISSION) else -base
  }

  /** Quote asset gained by a fill of the given side and value. */
  function QuoteDelta(side: OrderSide, quote: real): real {
    if side.Buy? then -quote else quote * (1.0 - COMMISSION)
  }

  /** One entry of the fill history: which order filled and the amounts its event carried. */
  datatype Fill = Fill(id: nat, side: OrderSide, base: real, quote: real)

  /** Which command created an order, and the ids created along with it. */
  datatype Group =
    | Single(id: nat)
    | Oto(working: nat, pending: nat)
    | Oco(above: nat, below: nat)
    | Otoco(working: nat, above: nat, below: nat)

  predicate Has(g: Group, x: nat) {
    match g
    case Single(a) => x == a
    case Oto(w, p) => x == w || x == p
    case Oco(a, b) => x == a || x == b
    case Otoco(w, a, b) => x == w || x == a || x == b
  }

  predicate Proper(g: Group) {
    match g
    case Single(_) => true
    case Oto(w, p) => w != p
    case Oco(a, b) => a != b
    case Otoco(w, a, b) => w != a && w != b && a != b
  }

  /** A fill of w makes p live. */
  predicate Triggers(g: Group, w: nat, p: nat) {
    match g
    case Oto(w', p') => w == w' && p == p'
    case Otoco(w', a, b) => w == w' && (p == a || p == b)
    case _ => false
  }

  /** x and y are wired to cancel each other. */
  predicate Siblings(g: Group, x: nat, y: nat) {
    match g
    case Oco(a, b) => (x == a && y == b) || (x == b && y == a)
    case Otoco(_, a, b) => (x == a && y == b) || (x == b && y == a)
    case _ => false
  }

  datatype Order = Order(terms: Terms, status: OrderStatus, triggered: seq<nat>, canceled: seq<nat>, group: Group)

  /** The trigger edges out of member x of group g, in the order they are added. */
  function TriggeredBy(g: Group, x: nat): (r: seq<nat>)
    ensures forall p :: p in r <==> Triggers(g, x, p)
  {
    match g
    case Oto(w, p) => if x == w then [p] else []
    case Otoco(w, a, b) => if x == w then [a, b] else []
    case _ => []
  }

  /** The cancel edges out of member x of group g. */
  function CanceledBy(g: Group, x: nat): (r: seq<nat>)
    requires Proper(g)
    ensures forall y :: y in r <==> Siblings(g, x, y)
  {
    match g
    case Oco(a, b) => if x == a then [b] else if x == b then [a] else []
    case Otoco(_, a, b) => if x == a then [b] else if x == b then [a] else []
    case _ => []
  }
}

/** The state of the contingent-order engine and its transitions as functions on values
    (wedge/backtest2/backtest_engine.cc). */
module Books {
  import opened Common
  import opened Numbers
  import opened Orders

  /** queue is new_orders_, lists is order_lists_. The last two fields are histories: every id
      ever pushed on the queue, and every fill, in order. */
  datatype Book = Book(
    base: real, quote: real, queue: seq<nat>, lists: seq<seq<nat>>, orders: seq<Order>,
    activated: seq<nat>, log: seq<Fill>)

  function Relabel(orders: seq<Order>, ids: seq<nat>, status: OrderStatus): (r: seq<Order>)
    ensures |r| == |orders|
    ensures forall i :: 0 <= i < |orders| ==>
      r[i] == orders[i].(status := if i in ids then status else orders[i].status)
  {
    seq(|orders|, i requires 0 <= i < |orders| =>
      orders[i].(status := if i in ids then status else orders[i].status))
  }

  /** A fill: pay, mark Filled, make the triggered orders live and queue them, cancel the siblings. */
  function FillOrder(b: Book, id: nat, c: Candle): Book
    requires id < |b.orders|
  {
    var o := b.orders[id];
    var value := FillValue(o.terms, c);
    var filled := b.orders[id := o.(status := Filled)];
    b.(base := b.base + BaseDelta(o.terms.side, o.terms.quantity),
       quote := b.quote + QuoteDelta(o.terms.side, value),
       queue := b.queue + o.triggered,
       activated := b.activated + o.triggered,
       log := b.log + [Fill(id, o.terms.side, o.terms.quantity, value)],
       orders := Relabel(Relabel(filled, o.triggered, New), o.canceled, Canceled))
  }

  predicate Ready(o: Order, c: Candle) {
    o.status.New? && Reaches(o.terms, c)
  }

  /** One iteration of the queue loop. */
  function Visit(b: Book, id: nat, c: Candle): Book
    requires id < |b.orders|
  {
    if Ready(b.orders[id], c) then FillOrder(b, id, c) else b
  }

  // ---------- what every reachable book satisfies ----------

  ghost predicate GroupWired(orders: seq<Order>, g: Group) {
    && Proper(g)
    && forall x: nat {:trigger Has(g, x)} :: Has(g, x) ==>
         && x < |orders|
         && orders[x].group == g
         && orders[x].triggered == TriggeredBy(g, x)
         && orders[x].canceled == CanceledBy(g, x)
  }

  ghost predicate Wired(orders: seq<Order>) {
    forall i :: 0 <= i < |orders| ==> Has(orders[i].group, i) && GroupWired(orders, orders[i].group)
  }

  ghost predicate QueueSound(b: Book) {
    && Distinct(b.queue)
    && forall k :: 0 <= k < |b.queue| ==> b.queue[k] < |b.orders| && !b.orders[b.queue[k]].status.PendingNew?
  }

  /** While a working order is live, its pending orders are dormant and not queued. */
  ghost predicate LegsDormant(b: Book) {
    forall w: nat, p: nat ::
      w < |b.orders| && p < |b.orders| && Triggers(b.orders[w].group, w, p) && b.orders[w].status.New? ==>
      p !in b.queue && (b.orders[p].status.PendingNew? || b.orders[p].status.Canceled?)
  }

  ghost predicate WellFormed(b: Book) {
    Wired(b.orders) && QueueSound(b) && LegsDormant(b)
  }

  /** What a fill of order id in group g makes of the status of order x. */
  function StatusAfterFill(g: Group, id: nat, x: nat, status: OrderStatus): OrderStatus {
    if Siblings(g, id, x) then Canceled
    else if Triggers(g, id, x) then New
    else if x == id then Filled
    else status
  }

  /** Edges stay within a group. */
  ghost predicate Edges(orders: seq<Order>) {
    forall x: nat, y: nat
      {:trigger Triggers(orders[x].group, x, y)} {:trigger Siblings(orders[x].group, x, y)} |
      x < |orders| && (Triggers(orders[x].group, x, y) || Siblings(orders[x].group, x, y)) ::
      y < |orders| && x != y && orders[y].group == orders[x].group
  }

  lemma EdgeStays(orders: seq<Order>, x: nat, y: nat)
    requires Wired(orders) && x < |orders| && (Triggers(orders[x].group, x, y) || Siblings(orders[x].group, x, y))
    ensures y < |orders| && x != y && orders[y].group == orders[x].group
  {
    var g := orders[x].group;
    assert GroupWired(orders, g);
    match g
    case Oto(w, p) => assert Has(g, y) && x != y;
    case Oco(a, b) => assert Has(g, y) && x != y;
    case Otoco(w, a, b) => assert Has(g, y) && x != y;
    case Single(_) => assert false;
  }

  lemma EdgesOf(orders: seq<Order>)
    requires Wired(orders)
    ensures Edges(orders)
  {
    forall x: nat, y: nat | x < |orders| && (Triggers(orders[x].group, x, y) || Siblings(orders[x].group, x, y))
      ensures y < |orders| && x != y && orders[y].group == orders[x].group
    {
      EdgeStays(orders, x, y);
    }
  }

  /** The effect of a fill of order id, told order by order. */
  ghost predicate Filling(b: Book, id: nat, r: Book) {
    && id < |b.orders| == |r.orders|
    && b.orders[id].status.New?
    && Edges(b.orders)
    && (forall x | 0 <= x < |b.orders| :: r.orders[x]
         == b.orders[x].(status := StatusAfterFill(b.orders[id].group, id, x, b.orders[x].status)))
    && r.queue == b.queue + TriggeredBy(b.orders[id].group, id)
    && r.activated == b.activated + TriggeredBy(b.orders[id].group, id)
    && |r.log| == |b.log| + 1
    && r.log[..|b.log|] == b.log
    && r.log[|b.log|].id == id
    && r.log[|b.log|].side == b.orders[id].terms.side
    && r.log[|b.log|].base == b.orders[id].terms.quantity
    && r.lists == b.lists
  }

  lemma FillIsFilling(b: Book, id: nat, c: Candle)
    requires Wired(b.orders) && id < |b.orders| && b.orders[id].status.New?
    ensures Filling(b, id, FillOrder(b, id, c)) && Distinct(TriggeredBy(b.orders[id].group, id))
  {
    EdgesOf(b.orders);
    assert GroupWired(b.orders, b.orders[id].group) && Has(b.orders[id].group, id);
  }

  ghost predicate SameWiring(before: seq<Order>, after: seq<Order>) {
    && |before| <= |after|
    && forall x :: 0 <= x < |before| ==> after[x] == before[x].(status := after[x].status)
  }

  lemma WiredKept(before: seq<Order>, after: seq<Order>)
    requires Wired(before) && SameWiring(before, after) && |before| == |after|
    ensures Wired(after)
  {
    forall i | 0 <= i < |after|
      ensures Has(after[i].group, i) && GroupWired(after, after[i].group)
    {
      assert Has(before[i].group, i) && GroupWired(before, before[i].group);
    }
  }

  lemma AppendDistinct(q: seq<nat>, more: seq<nat>)
    requires Distinct(q) && Distinct(more)
    requires forall x :: x in more ==> x !in q
    ensures Distinct(q + more)
  {
    var all := q + more;
    forall i, j | 0 <= i < j < |all|
      ensures all[i] != all[j]
    {
      assert j >= |q| ==> all[j] in more;
    }
  }

  lemma FillKeepsQueueSound(b: Book, id: nat, r: Book)
    requires Filling(b, id, r) && QueueSound(b) && LegsDormant(b)
    requires Distinct(TriggeredBy(b.orders[id].group, id))
    ensures QueueSound(r)
  {
    var legs := TriggeredBy(b.orders[id].group, id);
    AppendDistinct(b.queue, legs);
    forall k | 0 <= k < |r.queue|
      ensures r.queue[k] < |r.orders| && !r.orders[r.queue[k]].status.PendingNew?
    {
      if k >= |b.queue| {
        assert r.queue[k] in legs;
      }
    }
  }

  lemma FillKeepsLegsDormant(b: Book, id: nat, r: Book)
    requires Filling(b, id, r) && LegsDormant(b)
    ensures LegsDormant(r)
  {
    forall w: nat, p: nat | w < |r.orders| && p < |r.orders| && Triggers(r.orders[w].group, w, p)
      && r.orders[w].status.New?
      ensures p !in r.queue && (r.orders[p].status.PendingNew? || r.orders[p].status.Canceled?)
    {
      assert Triggers(b.orders[w].group, w, p);
      assert b.orders[p].group == b.orders[w].group;
    }
  }

  lemma VisitKeepsWellFormed(b: Book, id: nat, c: Candle)
    requires WellFormed(b) && id in b.queue && id < |b.orders|
    ensures WellFormed(Visit(b, id, c))
    ensures SameWiring(b.orders, Visit(b, id, c).orders) && |Visit(b, id, c).orders| == |b.orders|
    ensures b.queue <= Visit(b, id, c).queue
  {
    if Ready(b.orders[id], c) {
      var r := FillOrder(b, id, c);
      FillIsFilling(b, id, c);
      WiredKept(b.orders, r.orders);
      FillKeepsQueueSound(b, id, r);
      FillKeepsLegsDormant(b, id, r);
    }
  }

  /** The queue loop from position i on. The queue may grow while it runs, but never holds an id
      twice, so the position stays below the number of orders. */
  ghost function Run(b: Book, i: nat, c: Candle): Book
    requires WellFormed(b) && i <= |b.queue|
    decreases |b.orders| - i
  {
    if i == |b.queue| then b else
      assert b.queue[i] < |b.orders| && b.queue[i] in b.queue;
      VisitKeepsWellFormed(b, b.queue[i], c);
      DistinctBound(b.queue, |b.orders|);
      Run(Visit(b, b.queue[i], c), i + 1, c)
  }

  lemma RunUnfold(b: Book, i: nat, c: Candle)
    requires WellFormed(b) && i < |b.queue|
    ensures var id := b.queue[i];
      && id < |b.orders|
      && id in b.queue
      && i < |b.orders| == |Visit(b, id, c).orders|
      && i + 1 <= |Visit(b, id, c).queue|
      && WellFormed(Visit(b, id, c))
      && Run(b, i, c) == Run(Visit(b, id, c), i + 1, c)
  {
    var id := b.queue[i];
    assert id in b.queue;
    DistinctBound(b.queue, |b.orders|);
    VisitKeepsWellFormed(b, id, c);
  }

  /** The entries of q that are still live, in their order. */
  function LiveOnly(q: seq<nat>, orders: seq<Order>): seq<nat> {
    if q == [] then []
    else if q[0] < |orders| && orders[q[0]].status.New? then [q[0]] + LiveOnly(q[1..], orders)
    else LiveOnly(q[1..], orders)
  }

  /** update_new_orders: the queue loop, then the compaction of the queue. */
  ghost function Pass(b: Book, c: Candle): Book
    requires WellFormed(b)
  {
    var r := Run(b, 0, c);
    r.(queue := LiveOnly(r.queue, r.orders))
  }

  // ---------- client commands ----------

  /** PlaceLiveOco is add_order twice followed by add_oco, on the engine's public interface; the
      other placements are execute(NewOrder) and the alternatives of execute(NewOrderList). */
  datatype Command =
    | Cancel(id: nat)
    | CancelList(list: nat)
    | Place(order: Terms)
    | PlaceOto(working: Terms, pending: Terms)
    | PlaceOco(above: Terms, below: Terms)
    | PlaceLiveOco(above: Terms, below: Terms)
    | PlaceOtoco(working: Terms, above: Terms, below: Terms)
    | Tick(candle: Candle)

  /** The engine indexes its tables with the ids it is given. */
  predicate Enabled(b: Book, m: Command) {
    match m
    case Cancel(id) => id < |b.orders|
    case CancelList(l) => l < |b.lists|
    case _ => true
  }

  /** Fresh orders go to the end of the table, the live ones among them to the end of the queue. */
  function Append(b: Book, added: seq<Order>, live: seq<nat>, lists: seq<seq<nat>>): Book {
    b.(orders := b.orders + added,
       queue := b.queue + live,
       activated := b.activated + live,
       lists := b.lists + lists)
  }

  function FreshOrder(t: Terms, status: OrderStatus, g: Group, x: nat): Order
    requires Proper(g)
  {
    Order(t, status, TriggeredBy(g, x), CanceledBy(g, x), g)
  }

  function WithSingle(b: Book, t: Terms): Book {
    var n := |b.orders|;
    Append(b, [FreshOrder(t, New, Single(n), n)], [n], [])
  }

  function WithOto(b: Book, working: Terms, pending: Terms): Book {
    var n := |b.orders|;
    var g := Oto(n, n + 1);
    Append(b, [FreshOrder(working, New, g, n), FreshOrder(pending, PendingNew, g, n + 1)], [n], [[n, n + 1]])
  }

  /** belowStatus is PendingNew when the list command creates the pair. */
  function WithOco(b: Book, above: Terms, below: Terms, belowStatus: OrderStatus): Book {
    var n := |b.orders|;
    var g := Oco(n, n + 1);
    Append(b, [FreshOrder(above, New, g, n), FreshOrder(below, belowStatus, g, n + 1)],
      if belowStatus.New? then [n, n + 1] else [n], [[n, n + 1]])
  }

  function WithOtoco(b: Book, working: Terms, above: Terms, below: Terms): Book {
    var n := |b.orders|;
    var g := Otoco(n, n + 1, n + 2);
    Append(b, [FreshOrder(working, New, g, n), FreshOrder(above, PendingNew, g, n + 1),
      FreshOrder(below, PendingNew, g, n + 2)], [n], [[n, n + 1, n + 2]])
  }

  /** add_triggered and add_canceled on an order of the table, which joins group g thereby. */
  function TriggerEdge(b: Book, w: nat, p: nat, g: Group): Book
    requires w < |b.orders|
  {
    b.(orders := b.orders[w := b.orders[w].(triggered := b.orders[w].triggered + [p], group := g)])
  }

  function CancelEdge(b: Book, x: nat, y: nat, g: Group): Book
    requires x < |b.orders|
  {
    b.(orders := b.orders[x := b.orders[x].(canceled := b.orders[x].canceled + [y], group := g)])
  }

  /** A pending order of an OTO pair has no edges of its own. */
  function Join(b: Book, x: nat, g: Group): Book
    requires x < |b.orders|
  {
    b.(orders := b.orders[x := b.orders[x].(group := g)])
  }

  function AddList(b: Book, list: seq<nat>): Book {
    b.(lists := b.lists + [list])
  }

  /** add_oto, add_oco and add_otoco. */
  function WireOto(b: Book, w: nat, p: nat): Book
    requires w < |b.orders| && p < |b.orders|
  {
    AddList(Join(TriggerEdge(b, w, p, Oto(w, p)), p, Oto(w, p)), [w, p])
  }

  function WireOco(b: Book, x: nat, y: nat): Book
    requires x < |b.orders| && y < |b.orders|
  {
    AddList(CancelEdge(CancelEdge(b, x, y, Oco(x, y)), y, x, Oco(x, y)), [x, y])
  }

  function WireOtoco(b: Book, w: nat, x: nat, y: nat): Book
    requires w < |b.orders| && x < |b.orders| && y < |b.orders|
  {
    var g := Otoco(w, x, y);
    var triggering := TriggerEdge(TriggerEdge(b, w, x, g), w, y, g);
    AddList(CancelEdge(CancelEdge(triggering, x, y, g), y, x, g), [w, x, y])
  }

  /** The status setter cascades only for Filled, so a cancellation touches nothing else. */
  function CancelOrders(b: Book, ids: seq<nat>): Book {
    b.(orders := Relabel(b.orders, ids, OrderStatus.Canceled))
  }

  ghost function Step(b: Book, m: Command): Book
    requires WellFormed(b) && Enabled(b, m)
  {
    match m
    case Cancel(id) => CancelOrders(b, [id])
    case CancelList(l) => CancelOrders(b, b.lists[l])
    case Place(t) => WithSingle(b, t)
    case PlaceOto(w, p) => WithOto(b, w, p)
    case PlaceOco(x, y) => WithOco(b, x, y, PendingNew)
    case PlaceLiveOco(x, y) => WithOco(b, x, y, New)
    case PlaceOtoco(w, x, y) => WithOtoco(b, w, x, y)
    case Tick(c) => Pass(b, c)
  }
}
