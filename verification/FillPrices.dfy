/** When the engine's orders fill and what they pay, told in prices and amounts. */
module FillPrices {
  import opened Common
  import opened Orders
  import opened Books
  import opened BookInvariant
  import opened Decomposition
  import opened PassTheorems
  import opened BookRuns

  // ---------- after a pass ----------

  /** After a pass the candle lies wholly beyond the price of every live order: above limit buys and
      stop-loss sells, below limit sells and stop-loss buys. No market order is live. */
  lemma LiveOrdersOutOfReach(b: Book, c: Candle, x: nat)
    requires Inv(b) && x < |Pass(b, c).orders| && Pass(b, c).orders[x].status.New?
    ensures var t := Pass(b, c).orders[x].terms;
      match t.kind
      case Limit(price) => if t.side == Buy then price < c.low else c.high < price
      case StopLoss(price) => if t.side == Sell then price < c.low else c.high < price
      case Market => false
  {
    PassComplete(b, c, x);
  }

  /** A live order that stands alone fills in a pass if and only if the candle comes to its price: its
      low down to a limit buy or a stop-loss sell, its high up to a limit sell or a stop-loss buy. */
  lemma SingleFillsExactly(b: Book, c: Candle, x: nat)
    requires Inv(b) && x < |b.orders| && b.orders[x].group.Single? && b.orders[x].status.New?
    ensures |Pass(b, c).orders| == |b.orders|
    ensures var t := b.orders[x].terms;
      Pass(b, c).orders[x].status.Filled? <==>
        match t.kind
        case Limit(price) => (t.side == Buy && c.low <= price) || (t.side == Sell && price <= c.high)
        case StopLoss(price) => (t.side == Sell && c.low <= price) || (t.side == Buy && price <= c.high)
        case Market => true
  {
    PassOrders(b, c, x);
  }

  // ---------- every entry of the fill log ----------

  /** Entry f is a fill of an order with terms t on candle c: the candle came to its price, and the
      amounts are its quantity and the quantity at that price, or at the close for a market order. */
  ghost predicate PaidAt(t: Terms, f: Fill, c: Candle) {
    f.side == t.side && f.base == t.quantity &&
    match t.kind
    case Limit(price) =>
      f.quote == t.quantity * price && (if t.side == Buy then c.low <= price else price <= c.high)
    case StopLoss(price) =>
      f.quote == t.quantity * price && (if t.side == Sell then c.low <= price else price <= c.high)
    case Market => f.quote == t.quantity * c.close
  }

  lemma FillPaid(b: Book, id: nat, c: Candle)
    requires id < |b.orders| && Ready(b.orders[id], c)
    ensures FillOrder(b, id, c).log == b.log + [FillOrder(b, id, c).log[|b.log|]]
    ensures FillOrder(b, id, c).log[|b.log|].id == id
    ensures PaidAt(b.orders[id].terms, FillOrder(b, id, c).log[|b.log|], c)
  {
  }

  /** Entry i belongs to an order of the table and was paid at candle c. */
  ghost predicate EntryPaid(orders: seq<Order>, log: seq<Fill>, i: nat, c: Candle) {
    i < |log| && log[i].id < |orders| && PaidAt(orders[log[i].id].terms, log[i], c)
  }

  lemma EntryPaidKept(before: seq<Order>, after: seq<Order>, short: seq<Fill>, long: seq<Fill>, i: nat, c: Candle)
    requires SameWiring(before, after) && short <= long && EntryPaid(before, short, i, c)
    ensures EntryPaid(after, long, i, c)
  {
    var x := short[i].id;
    assert after[x] == before[x].(status := after[x].status) && long[i] == short[i];
  }

  lemma {:induction false} RunPaid(b: Book, i: nat, c: Candle, k: nat)
    requires Core(b) && i <= |b.queue| && |b.log| <= k < |Run(b, i, c).log|
    ensures EntryPaid(b.orders, Run(b, i, c).log, k, c)
    decreases |b.orders| - i
  {
    if i < |b.queue| {
      var id := b.queue[i];
      var r := Visit(b, id, c);
      RunUnfold(b, i, c);
      VisitKeepsCore(b, id, c);
      RunKeepsCore(r, i + 1, c);
      if k < |r.log| {
        VisitPaid(b, id, c, k);
        assert r.log <= Run(r, i + 1, c).log;
      } else {
        RunPaid(r, i + 1, c, k);
        VisitPaidBack(b, id, c, Run(r, i + 1, c).log, k);
      }
    }
  }

  lemma VisitPaid(b: Book, id: nat, c: Candle, k: nat)
    requires id < |b.orders| && |b.log| <= k < |Visit(b, id, c).log|
    ensures EntryPaid(b.orders, Visit(b, id, c).log, k, c)
  {
    FillPaid(b, id, c);
  }

  /** A visit changes no terms. */
  lemma VisitPaidBack(b: Book, id: nat, c: Candle, log: seq<Fill>, k: nat)
    requires Wired(b.orders) && id < |b.orders| && EntryPaid(Visit(b, id, c).orders, log, k, c)
    ensures EntryPaid(b.orders, log, k, c)
  {
    VisitTerms(b, id, c);
    var x := log[k].id;
    assert Visit(b, id, c).orders[x] == b.orders[x].(status := Visit(b, id, c).orders[x].status);
  }

  /** Every entry that a pass adds was paid at its candle. */
  lemma PassPaid(b: Book, c: Candle, k: nat)
    requires Inv(b) && |b.log| <= k < |Pass(b, c).log|
    ensures EntryPaid(b.orders, Pass(b, c).log, k, c)
  {
    RunPaid(b, 0, c, k);
  }

  /** In every run, every entry of the log was paid at the candle of one of its passes. */
  lemma {:induction false} EveryEntryPaid(b: Book, run: seq<Command>, k: nat)
    requires Inv(b) && Legal(b, run) && |b.log| <= k < |Exec(b, run).log|
    ensures exists j: nat ::
      j < |run| && run[j].Tick? && EntryPaid(Exec(b, run).orders, Exec(b, run).log, k, run[j].candle)
    decreases |run|
  {
    var m, r := run[0], Step(b, run[0]);
    StepKeepsInv(b, m);
    ExecKeepsInv(r, run[1..]);
    if k < |r.log| {
      assert m.Tick?;
      PassPaid(b, m.candle, k);
      EntryPaidKept(b.orders, r.orders, r.log, r.log, k, m.candle);
      EntryPaidKept(r.orders, Exec(b, run).orders, r.log, Exec(b, run).log, k, m.candle);
      assert run[0].Tick? && EntryPaid(Exec(b, run).orders, Exec(b, run).log, k, run[0].candle);
    } else {
      EveryEntryPaid(r, run[1..], k);
      var j: nat :| j < |run[1..]| && run[1..][j].Tick?
        && EntryPaid(Exec(b, run).orders, Exec(b, run).log, k, run[1..][j].candle);
      assert run[j + 1] == run[1..][j];
    }
  }

  // ---------- the ledger in numbers ----------

  /** What the log has brought in base and in quote: a ten-thousandth of what is received is kept. */
  function BaseReceived(log: seq<Fill>): real {
    if log == [] then 0.0
    else
      var f := log[|log| - 1];
      BaseReceived(log[..|log| - 1]) + (if f.side == Buy then f.base - 0.0001 * f.base else -f.base)
  }

  function QuoteReceived(log: seq<Fill>): real {
    if log == [] then 0.0
    else
      var f := log[|log| - 1];
      QuoteReceived(log[..|log| - 1]) + (if f.side == Buy then -f.quote else f.quote - 0.0001 * f.quote)
  }

  lemma {:induction false} LogInNumbers(log: seq<Fill>)
    ensures LogBase(log) == BaseReceived(log) && LogQuote(log) == QuoteReceived(log)
  {
    if log != [] {
      LogInNumbers(log[..|log| - 1]);
    }
  }

  /** In every run, for orders of any quantity. */
  lemma LedgerInNumbers(base: real, quote: real, run: seq<Command>)
    requires Inv(Opened(base, quote)) && Legal(Opened(base, quote), run)
    ensures var b := Exec(Opened(base, quote), run);
      b.base == base + BaseReceived(b.log) && b.quote == quote + QuoteReceived(b.log)
  {
    Ledger(base, quote, run);
    LogInNumbers(Exec(Opened(base, quote), run).log);
  }

  // ---------- what a placement creates ----------

  /** An order has these terms and this status, and has just been created. */
  ghost predicate Created(b: Book, x: nat, t: Terms, s: OrderStatus) {
    x < |b.orders| && b.orders[x].terms == t && b.orders[x].status == s && (s.New? <==> x in b.queue)
  }

  /** The new ids of each placement, in the order of its parts, and which of them are live at once. */
  lemma PlacementCreates(b: Book, m: Command)
    requires Inv(b) && IsPlacement(m)
    ensures var r, n := Step(b, m), |b.orders|;
      match m
      case Place(t) => |r.orders| == n + 1 && Created(r, n, t, New)
      case PlaceOto(w, p) => |r.orders| == n + 2 && Created(r, n, w, New) && Created(r, n + 1, p, PendingNew)
      case PlaceOco(a, y) => |r.orders| == n + 2 && Created(r, n, a, New) && Created(r, n + 1, y, PendingNew)
      case PlaceLiveOco(a, y) => |r.orders| == n + 2 && Created(r, n, a, New) && Created(r, n + 1, y, New)
      case PlaceOtoco(w, a, y) => |r.orders| == n + 3 && Created(r, n, w, New)
        && Created(r, n + 1, a, PendingNew) && Created(r, n + 2, y, PendingNew)
      case _ => true
  {
    assert forall x | x in b.queue :: x < |b.orders|;
  }
}
