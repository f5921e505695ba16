/** What the bracket-placing client earns and risks over whole runs of the engine. */
module StrategyRuns {
  import opened Common
  import opened Numbers
  import opened Orders
  import opened Books
  import opened BookInvariant
  import opened Decomposition
  import opened PassTheorems
  import opened BookRuns
  import opened RunDecomposition
  import opened RangeIndicator
  import opened Strategy001Client

  /** The commands of the strategy, and the passes between them. */
  predicate BracketCommand(m: Command) {
    m.CancelList? || m.Tick? || (m.PlaceOtoco? && m.working.kind.Limit? && m == Bracket(m.working.kind.price))
  }

  /** The three orders from n on are those of one bracket, at the limit price of the first. */
  ghost predicate BracketAt(orders: seq<Order>, n: nat) {
    && n + 2 < |orders|
    && orders[n].group == Otoco(n, n + 1, n + 2)
    && orders[n].terms.kind.Limit?
    && var m := Bracket(orders[n].terms.kind.price);
       orders[n].terms == m.working && orders[n + 1].terms == m.above && orders[n + 2].terms == m.below
  }

  /** The table consists of m brackets, one after the other. */
  ghost predicate Brackets(orders: seq<Order>, m: nat) {
    |orders| == 3 * m && forall k: nat | k < m :: BracketAt(orders, 3 * k)
  }

  lemma ExtendsKeepsBracket(b: Book, r: Book, n: nat)
    requires Extends(b, r) && BracketAt(b.orders, n)
    ensures BracketAt(r.orders, n)
  {
    SameTerms(b, r, n);
    SameTerms(b, r, n + 1);
    SameTerms(b, r, n + 2);
  }

  lemma ExtendsKeepsBrackets(b: Book, r: Book, m: nat)
    requires Extends(b, r) && |b.orders| == 3 * m && forall k: nat | k < m :: BracketAt(b.orders, 3 * k)
    ensures forall k: nat | k < m :: BracketAt(r.orders, 3 * k)
  {
    forall k: nat | k < m
      ensures BracketAt(r.orders, 3 * k)
    {
      ExtendsKeepsBracket(b, r, 3 * k);
    }
  }

  lemma StepExtends(b: Book, c: Command)
    requires Inv(b) && Enabled(b, c) && BracketCommand(c)
    ensures Extends(b, Step(b, c))
    ensures |Step(b, c).orders| == if c.PlaceOtoco? then |b.orders| + 3 else |b.orders|
  {
    StepKeepsInv(b, c);
    if c.Tick? {
      PassKeepsInv(b, c.candle);
    }
  }

  lemma StepKeepsBrackets(b: Book, c: Command, m: nat)
    requires Inv(b) && Enabled(b, c) && BracketCommand(c) && Brackets(b.orders, m)
    ensures Brackets(Step(b, c).orders, if c.PlaceOtoco? then m + 1 else m)
  {
    var r := Step(b, c);
    StepExtends(b, c);
    ExtendsKeepsBrackets(b, r, m);
    if c.PlaceOtoco? {
      NewBracket(b, c.working.kind.price, m);
      BracketsGrow(r.orders, m);
    }
  }

  lemma BracketsGrow(orders: seq<Order>, m: nat)
    requires |orders| == 3 * m + 3 && BracketAt(orders, 3 * m) && forall k: nat | k < m :: BracketAt(orders, 3 * k)
    ensures Brackets(orders, m + 1)
  {
  }

  lemma SameTerms(b: Book, r: Book, x: nat)
    requires Extends(b, r) && x < |b.orders|
    ensures x < |r.orders| && r.orders[x].terms == b.orders[x].terms && r.orders[x].group == b.orders[x].group
  {
    assert r.orders[x] == b.orders[x].(status := r.orders[x].status);
  }

  lemma NewBracket(b: Book, limit: real, m: nat)
    requires |b.orders| == 3 * m
    ensures |WithBracket(b, limit).orders| == 3 * m + 3 && BracketAt(WithBracket(b, limit).orders, 3 * m)
  {
  }

  function CountBrackets(run: seq<Command>): nat {
    if run == [] then 0 else (if run[0].PlaceOtoco? then 1 else 0) + CountBrackets(run[1..])
  }

  lemma {:induction false} ExecKeepsBrackets(b: Book, run: seq<Command>, m: nat)
    requires Inv(b) && Legal(b, run) && Brackets(b.orders, m) && forall i | 0 <= i < |run| :: BracketCommand(run[i])
    ensures Brackets(Exec(b, run).orders, m + CountBrackets(run))
    decreases |run|
  {
    if run != [] {
      StepKeepsInv(b, run[0]);
      StepKeepsBrackets(b, run[0], m);
      ExecKeepsBrackets(Step(b, run[0]), run[1..], if run[0].PlaceOtoco? then m + 1 else m);
    }
  }

  // ---------- the client's events as commands ----------

  /** The commands that one event makes the strategy send. */
  function EventCommands(lists: seq<OpenList>, limit: real): seq<Command>
    decreases |lists|
  {
    if lists == [] then [Bracket(limit)]
    else if IsNewOrder(lists[0].orders) then [CancelList(lists[0].listId)] + EventCommands(lists[1..], limit)
    else EventCommands(lists[1..], limit)
  }

  lemma EventCommandsKind(lists: seq<OpenList>, limit: real)
    ensures forall i | 0 <= i < |EventCommands(lists, limit)| :: BracketCommand(EventCommands(lists, limit)[i])
    ensures CountBrackets(EventCommands(lists, limit)) == 1
    decreases |lists|
  {
    if lists != [] {
      EventCommandsKind(lists[1..], limit);
      var rest := EventCommands(lists[1..], limit);
      var m := CancelList(lists[0].listId);
      assert ([m] + rest)[1..] == rest && ([m] + rest)[0] == m;
    } else {
      assert [Bracket(limit)][1..] == [];
    }
  }

  lemma {:induction false} EventExec(b: Book, lists: seq<OpenList>, limit: real)
    requires Inv(b) && forall i | 0 <= i < |lists| :: lists[i].listId < |b.lists|
    ensures Ran(b, EventCommands(lists, limit)) == Some(WithBracket(AfterCancels(b, lists), limit))
    decreases |lists|
  {
    if lists == [] {
      ExecOne(b, Bracket(limit));
      BracketStep(b, limit);
    } else if IsNewOrder(lists[0].orders) {
      var m := CancelList(lists[0].listId);
      StepKeepsInv(b, m);
      RanFirst(b, m, EventCommands(lists[1..], limit));
      EventExec(Step(b, m), lists[1..], limit);
    } else {
      EventExec(b, lists[1..], limit);
    }
  }

  /** Handling an event is a run of legal bracket commands with one placement, so the bound above
      applies to the strategy. It never sends CancelOrder and so follows the protocol. */
  lemma EventIsRun(b: Book, lists: seq<OpenList>, limit: real)
    requires Inv(b) && forall i | 0 <= i < |lists| :: lists[i].listId < |b.lists|
    ensures var run := EventCommands(lists, limit);
      && Legal(b, run)
      && Exec(b, run) == WithBracket(AfterCancels(b, lists), limit)
      && (forall i | 0 <= i < |run| :: BracketCommand(run[i]))
      && CountBrackets(run) == 1
  {
    EventCommandsKind(lists, limit);
    EventExec(b, lists, limit);
  }

  lemma {:induction false} BracketRunsObey(b: Book, run: seq<Command>)
    requires Inv(b) && Legal(b, run) && forall i | 0 <= i < |run| :: BracketCommand(run[i])
    ensures Obeys(b, run)
    decreases |run|
  {
    if run != [] {
      StepKeepsInv(b, run[0]);
      BracketRunsObey(Step(b, run[0]), run[1..]);
    }
  }

  /** What an event places, after a history of highs and lows that ends with its own candle. */
  lemma EventPlaces(b: Book, lists: seq<OpenList>, c: Candle, highs: seq<real>, lows: seq<real>)
    requires 0 < |highs| == |lows|
    ensures var price := LimitPrice(c, RangeOf(24, highs, lows), 0.1);
      && BracketPlaced(Handle(b, lists, price), |b.orders|, price)
      && (|highs| >= 24 ==> price == c.open - (MaxOf(highs[|highs| - 24..]) - MinOf(lows[|lows| - 24..])) / 10.0)
      && ((forall i | 0 <= i < |lows| :: 0.0 < lows[i] <= highs[i]) ==>
            (|highs| < 24 ==> price == c.open - MaxOf(highs) / 10.0) && price <= c.open)
  {
    var limit := LimitPrice(c, RangeOf(24, highs, lows), 0.1);
    CancelsKeepSize(b, lists);
    LimitPriceInFull(c, highs, lows);
    BracketIsPlaced(AfterCancels(b, lists), limit);
  }

  // ---------- the account of the strategy ----------

  /** How far a bracket has got: not bought, bought, sold at the stop, sold at the profit. */
  datatype Outcome = Idle | Holding | Stopped | Earned

  ghost function OutcomeOf(log: seq<Fill>, n: nat): Outcome {
    if !Logged(log, n) then Idle
    else if Logged(log, n + 1) then Stopped
    else if Logged(log, n + 2) then Earned
    else Holding
  }

  /** What each outcome has moved, for a bracket of one unit bought at the limit price. */
  function BaseMoved(o: Outcome): real {
    match o
    case Idle => 0.0
    case Holding => 1.0 - COMMISSION
    case Stopped => -COMMISSION
    case Earned => -COMMISSION
  }

  function QuoteMoved(o: Outcome, limit: real): real {
    match o
    case Idle => 0.0
    case Holding => -limit
    case Stopped => limit * (1.0 - 0.0005) * (1.0 - COMMISSION) - limit
    case Earned => limit * (1.0 + 0.0005) * (1.0 - COMMISSION) - limit
  }

  function Worth(t: Terms): real
    requires !t.kind.Market?
  {
    t.quantity * t.kind.price
  }

  /** An entry carries the price of an order that has one. */
  ghost predicate EntryPriced(orders: seq<Order>, f: Fill) {
    f.id < |orders| && (!orders[f.id].terms.kind.Market? ==> f.quote == Worth(orders[f.id].terms))
  }

  ghost predicate Priced(b: Book) {
    forall i | 0 <= i < |b.log| :: EntryPriced(b.orders, b.log[i])
  }

  lemma PricedKept(b: Book, r: Book)
    requires Priced(b) && SameWiring(b.orders, r.orders) && r.log == b.log
    ensures Priced(r)
  {
    forall i | 0 <= i < |r.log|
      ensures EntryPriced(r.orders, r.log[i])
    {
      assert EntryPriced(b.orders, b.log[i]);
    }
  }

  lemma FillPriced(b: Book, id: nat, c: Candle)
    requires id < |b.orders|
    ensures FillOrder(b, id, c).log == b.log + [FillOrder(b, id, c).log[|b.log|]]
    ensures EntryPriced(b.orders, FillOrder(b, id, c).log[|b.log|])
  {
  }

  lemma SameEntryPriced(b: Book, r: Book, f: Fill)
    requires SameWiring(b.orders, r.orders) && EntryPriced(b.orders, f)
    ensures EntryPriced(r.orders, f)
  {
    assert r.orders[f.id] == b.orders[f.id].(status := r.orders[f.id].status);
  }

  lemma VisitKeepsPriced(b: Book, id: nat, c: Candle)
    requires Wired(b.orders) && id < |b.orders| && Priced(b)
    ensures Priced(Visit(b, id, c))
  {
    if Ready(b.orders[id], c) {
      var r := Visit(b, id, c);
      FillIsFilling(b, id, c);
      FillPriced(b, id, c);
      forall i | 0 <= i < |r.log|
        ensures EntryPriced(r.orders, r.log[i])
      {
        assert i < |b.log| ==> EntryPriced(b.orders, b.log[i]);
        SameEntryPriced(b, r, r.log[i]);
      }
    }
  }

  lemma {:induction false} RunKeepsPriced(b: Book, i: nat, c: Candle)
    requires WellFormed(b) && i <= |b.queue| && Priced(b)
    ensures Priced(Run(b, i, c))
    decreases |b.orders| - i
  {
    if i < |b.queue| {
      RunUnfold(b, i, c);
      VisitKeepsPriced(b, b.queue[i], c);
      RunKeepsPriced(Visit(b, b.queue[i], c), i + 1, c);
    }
  }

  lemma StepKeepsPriced(b: Book, m: Command)
    requires Inv(b) && Enabled(b, m) && Priced(b)
    ensures Priced(Step(b, m))
  {
    if m.Tick? {
      RunKeepsPriced(b, 0, m.candle);
      PricedKept(Run(b, 0, m.candle), Step(b, m));
    } else {
      StepKeepsInv(b, m);
      PricedKept(b, Step(b, m));
    }
  }

  lemma {:induction false} ExecKeepsPriced(b: Book, run: seq<Command>)
    requires Inv(b) && Legal(b, run) && Priced(b)
    ensures Priced(Exec(b, run))
    decreases |run|
  {
    if run != [] {
      StepKeepsInv(b, run[0]);
      StepKeepsPriced(b, run[0]);
      ExecKeepsPriced(Step(b, run[0]), run[1..]);
    }
  }

  lemma {:induction false} EntryOfLog(log: seq<Fill>, x: nat)
    ensures EntryOf(log, x).Some? <==> Logged(log, x)
    ensures EntryOf(log, x).Some? ==> exists i :: 0 <= i < |log| && log[i] == EntryOf(log, x).value && log[i].id == x
  {
    if log != [] {
      var front := log[..|log| - 1];
      EntryOfLog(front, x);
      LoggedGrows(front, log, x);
      if i :| 0 <= i < |log| && log[i].id == x && i < |front| {
        assert front[i].id == x;
      }
    }
  }

  /** The entry of a priced order, if it has filled, is its terms. */
  lemma EntryTerms(b: Book, x: nat)
    requires LogSound(b) && Priced(b) && x < |b.orders| && !b.orders[x].terms.kind.Market?
    ensures var e, t := EntryOf(b.log, x), b.orders[x].terms;
      && (e.Some? <==> Logged(b.log, x))
      && (e.Some? ==> e.value.side == t.side && e.value.base == t.quantity && e.value.quote == Worth(t))
  {
    EntryOfLog(b.log, x);
    if EntryOf(b.log, x).Some? {
      var i :| 0 <= i < |b.log| && b.log[i] == EntryOf(b.log, x).value && b.log[i].id == x;
      assert EntrySound(b.orders, b.log[i]) && EntryPriced(b.orders, b.log[i]);
    }
  }

  /** A bracket sells only what it has bought, and sells once. */
  lemma BracketOrder(b: Book, n: nat)
    requires LogInv(b) && Edges(b.orders) && BracketAt(b.orders, n)
    ensures Logged(b.log, n + 1) || Logged(b.log, n + 2) ==> Logged(b.log, n)
    ensures !(Logged(b.log, n + 1) && Logged(b.log, n + 2))
  {
    assert Triggers(b.orders[n].group, n, n + 1) && Triggers(b.orders[n].group, n, n + 2);
    LegLoggedAfterWorking(b, n, n + 1);
    LegLoggedAfterWorking(b, n, n + 2);
    assert b.orders[n + 1].group == b.orders[n].group;
    assert Siblings(b.orders[n + 1].group, n + 1, n + 2);
  }

  lemma BracketMoves(b: Book, n: nat)
    requires LogInv(b) && Edges(b.orders) && Priced(b) && BracketAt(b.orders, n)
    ensures var o, limit := OutcomeOf(b.log, n), b.orders[n].terms.kind.price;
      var base, quote := BaseEntries(b.log), QuoteEntries(b.log);
      && base(n) + base(n + 1) + base(n + 2) == BaseMoved(o)
      && quote(n) + quote(n + 1) + quote(n + 2) == QuoteMoved(o, limit)
  {
    BracketOrder(b, n);
    EntryTerms(b, n);
    EntryTerms(b, n + 1);
    EntryTerms(b, n + 2);
  }

  lemma {:induction false} SumOfTriples(m: nat, f: nat -> real, g: nat -> real)
    requires forall k: nat | k < m :: g(k) == f(3 * k) + f(3 * k + 1) + f(3 * k + 2)
    ensures Sum(3 * m, f) == Sum(m, g)
  {
    if m > 0 {
      SumOfTriples(m - 1, f, g);
      var n := 3 * (m - 1);
      assert Sum(n + 3, f) == Sum(n + 2, f) + f(n + 2);
      assert Sum(n + 2, f) == Sum(n + 1, f) + f(n + 1);
      assert Sum(n + 1, f) == Sum(n, f) + f(n);
    }
  }

  /** What bracket k has moved. */
  ghost function BaseByBracket(b: Book): nat -> real {
    (k: nat) => BaseMoved(OutcomeOf(b.log, 3 * k))
  }

  ghost function QuoteByBracket(b: Book): nat -> real {
    (k: nat) =>
      if 3 * k < |b.orders| && b.orders[3 * k].terms.kind.Limit?
      then QuoteMoved(OutcomeOf(b.log, 3 * k), b.orders[3 * k].terms.kind.price) else 0.0
  }

  lemma BracketsMove(b: Book, m: nat)
    requires LogInv(b) && Edges(b.orders) && Priced(b) && Brackets(b.orders, m)
    ensures Sum(3 * m, BaseEntries(b.log)) == Sum(m, BaseByBracket(b))
    ensures Sum(3 * m, QuoteEntries(b.log)) == Sum(m, QuoteByBracket(b))
  {
    forall k: nat | k < m
      ensures BaseByBracket(b)(k)
        == BaseEntries(b.log)(3 * k) + BaseEntries(b.log)(3 * k + 1) + BaseEntries(b.log)(3 * k + 2)
      ensures QuoteByBracket(b)(k)
        == QuoteEntries(b.log)(3 * k) + QuoteEntries(b.log)(3 * k + 1) + QuoteEntries(b.log)(3 * k + 2)
    {
      assert BracketAt(b.orders, 3 * k);
      BracketMoves(b, 3 * k);
    }
    SumOfTriples(m, BaseEntries(b.log), BaseByBracket(b));
    SumOfTriples(m, QuoteEntries(b.log), QuoteByBracket(b));
  }

  /** With Strategy001 as the only client, the account is exactly the initial funds plus what each of
      the n brackets has moved by its outcome, whatever the candles do. */
  lemma StrategyAccount(base: real, quote: real, run: seq<Command>)
    requires Inv(Opened(base, quote)) && Legal(Opened(base, quote), run)
    requires forall i | 0 <= i < |run| :: BracketCommand(run[i])
    ensures var b, n := Exec(Opened(base, quote), run), CountBrackets(run);
      && Brackets(b.orders, n)
      && b.base == base + Sum(n, BaseByBracket(b))
      && b.quote == quote + Sum(n, QuoteByBracket(b))
  {
    var b, n := Exec(Opened(base, quote), run), CountBrackets(run);
    ExecKeepsBrackets(Opened(base, quote), run, 0);
    ExecKeepsInv(Opened(base, quote), run);
    ExecKeepsPriced(Opened(base, quote), run);
    EdgesOf(b.orders);
    FundsByOrder(base, quote, run);
    BracketsMove(b, n);
  }

  function Commissions(m: nat): real {
    COMMISSION * m as real
  }

  lemma {:induction false} SumAtLeast(m: nat, f: nat -> real)
    requires forall k: nat | k < m :: f(k) >= -COMMISSION
    ensures Sum(m, f) >= -Commissions(m)
  {
    if m > 0 {
      SumAtLeast(m - 1, f);
    }
  }

  lemma BracketsLose(b: Book, n: nat)
    ensures Sum(n, BaseByBracket(b)) >= -Commissions(n)
  {
    forall k: nat | k < n
      ensures BaseByBracket(b)(k) >= -COMMISSION
    {
      assert BaseMoved(OutcomeOf(b.log, 3 * k)) >= -COMMISSION;
    }
    SumAtLeast(n, BaseByBracket(b));
  }

  /** So n brackets leave at least the initial base minus n times the commission. */
  lemma StrategyBound(base: real, quote: real, run: seq<Command>)
    requires Inv(Opened(base, quote)) && Legal(Opened(base, quote), run)
    requires forall i | 0 <= i < |run| :: BracketCommand(run[i])
    ensures Exec(Opened(base, quote), run).base >= base - Commissions(CountBrackets(run))
  {
    StrategyAccount(base, quote, run);
    BracketsLose(Exec(Opened(base, quote), run), CountBrackets(run));
  }

  // ---------- at most one live working order ----------

  ghost predicate Working(b: Book, x: nat) {
    && x < |b.orders| && b.orders[x].group.Otoco? && b.orders[x].group.working == x
    && b.orders[x].status.New?
  }

  ghost predicate OneWorking(b: Book) {
    forall x: nat, y: nat | Working(b, x) && Working(b, y) :: x == y
  }

  /** List k is the bracket k. */
  ghost predicate ListOf(b: Book, k: nat) {
    k < |b.lists| && b.lists[k] == [3 * k, 3 * k + 1, 3 * k + 2]
  }

  ghost predicate BracketBook(b: Book, m: nat) {
    Inv(b) && Brackets(b.orders, m) && |b.lists| == m && forall k: nat | k < m :: ListOf(b, k)
  }

  /** The event shows every list of which an order is live, and each list as it is. */
  ghost predicate Snapshot(b: Book, lists: seq<OpenList>) {
    && (forall i | 0 <= i < |lists| :: lists[i].listId < |b.lists| && Accurate(b, lists[i]))
    && (forall x: nat | x < |b.orders| && b.orders[x].status.New? :: Shown(b, lists, x))
  }

  ghost predicate Shown(b: Book, lists: seq<OpenList>, x: nat) {
    forall l: nat | l < |b.lists| && x in b.lists[l] :: exists i :: 0 <= i < |lists| && lists[i].listId == l
  }

  lemma CancelsOnly(b: Book, lists: seq<OpenList>, x: nat)
    requires x < |b.orders|
    ensures AfterCancels(b, lists).lists == b.lists && |AfterCancels(b, lists).orders| == |b.orders|
    ensures var o := AfterCancels(b, lists).orders[x];
      o == b.orders[x] || o == b.orders[x].(status := OrderStatus.Canceled)
    decreases |lists|
  {
    if lists != [] {
      CancelsOnly(AfterEntry(b, lists[0]), lists[1..], x);
    }
  }

  /** A list that the strategy withdraws is cancelled after the event. */
  lemma {:induction false} CancelsHit(b: Book, lists: seq<OpenList>, i: nat, x: nat)
    requires i < |lists| && lists[i].listId < |b.lists| && IsNewOrder(lists[i].orders)
    requires x < |b.orders| && x in b.lists[lists[i].listId]
    ensures |AfterCancels(b, lists).orders| == |b.orders|
    ensures AfterCancels(b, lists).orders[x].status.Canceled?
    decreases |lists|
  {
    var r := AfterEntry(b, lists[0]);
    if i == 0 {
      CancelsOnly(r, lists[1..], x);
    } else {
      CancelsHit(r, lists[1..], i - 1, x);
    }
  }

  /** A bracket whose working order is live has no fill. */
  lemma LiveBracketUnfilled(b: Book, n: nat)
    requires LogInv(b) && Edges(b.orders) && BracketAt(b.orders, n) && b.orders[n].status.New?
    ensures !b.orders[n + 1].status.Filled? && !b.orders[n + 2].status.Filled?
  {
    BracketOrder(b, n);
    LiveNotLogged(b, n);
  }

  lemma WorkingLeads(b: Book, m: nat, x: nat)
    requires Brackets(b.orders, m) && Wired(b.orders) && Working(b, x)
    ensures x % 3 == 0 && x / 3 < m && x == 3 * (x / 3)
  {
    var k := x / 3;
    assert BracketAt(b.orders, 3 * k);
    var g := b.orders[3 * k].group;
    assert GroupWired(b.orders, g);
    assert Has(g, x);
  }

  lemma ShownUnfilled(b: Book, n: nat, l: OpenList)
    requires n + 2 < |b.orders| && !b.orders[n].status.Filled?
    requires !b.orders[n + 1].status.Filled? && !b.orders[n + 2].status.Filled?
    requires l.listId < |b.lists| && b.lists[l.listId] == [n, n + 1, n + 2] && Accurate(b, l)
    ensures IsNewOrder(l.orders)
  {
    var ids := b.lists[l.listId];
    forall i | 0 <= i < |l.orders|
      ensures !l.orders[i].status.Filled?
    {
      assert ids[i] == n || ids[i] == n + 1 || ids[i] == n + 2;
    }
  }

  /** A bracket that waits for its first fill, and is shown as it is, is withdrawn. */
  lemma WaitingWithdrawn(b: Book, lists: seq<OpenList>, i: nat, n: nat)
    requires LogInv(b) && Edges(b.orders) && BracketAt(b.orders, n) && b.orders[n].status.New?
    requires i < |lists| && lists[i].listId < |b.lists| && b.lists[lists[i].listId] == [n, n + 1, n + 2]
    requires Accurate(b, lists[i])
    ensures |AfterCancels(b, lists).orders| == |b.orders| && AfterCancels(b, lists).orders[n].status.Canceled?
  {
    LiveBracketUnfilled(b, n);
    ShownUnfilled(b, n, lists[i]);
    assert n == b.lists[lists[i].listId][0];
    CancelsHit(b, lists, i, n);
  }

  /** With a complete snapshot the strategy leaves no working order live before it places the next. */
  lemma NoneLive(b: Book, m: nat, lists: seq<OpenList>, x: nat)
    requires BracketBook(b, m) && Snapshot(b, lists)
    ensures !Working(AfterCancels(b, lists), x)
  {
    CancelsKeepSize(b, lists);
    if x < |b.orders| {
      CancelsOnly(b, lists, x);
      if Working(b, x) {
        WorkingLeads(b, m, x);
        EdgesOf(b.orders);
        assert ListOf(b, x / 3) && BracketAt(b.orders, 3 * (x / 3));
        WorkingShown(b, lists, x / 3);
      }
    }
  }

  lemma WorkingShown(b: Book, lists: seq<OpenList>, k: nat)
    requires LogInv(b) && Edges(b.orders) && Snapshot(b, lists) && ListOf(b, k)
    requires BracketAt(b.orders, 3 * k) && b.orders[3 * k].status.New?
    ensures |AfterCancels(b, lists).orders| == |b.orders| && AfterCancels(b, lists).orders[3 * k].status.Canceled?
  {
    var n := 3 * k;
    assert Shown(b, lists, n) && n == b.lists[k][0];
    var i :| 0 <= i < |lists| && lists[i].listId == k;
    WaitingWithdrawn(b, lists, i, n);
  }

  lemma {:induction false} CancelsKeepSize(b: Book, lists: seq<OpenList>)
    ensures |AfterCancels(b, lists).orders| == |b.orders| && AfterCancels(b, lists).lists == b.lists
    decreases |lists|
  {
    if lists != [] {
      CancelsKeepSize(AfterEntry(b, lists[0]), lists[1..]);
    }
  }

  // ---------- whole histories: events, and passes between them ----------

  datatype Happening = Event(lists: seq<OpenList>, limit: real) | Trading(candle: Candle)

  function Handle(b: Book, lists: seq<OpenList>, limit: real): Book {
    WithBracket(AfterCancels(b, lists), limit)
  }

  lemma {:induction false} CancelsKeepBracketBook(b: Book, m: nat, lists: seq<OpenList>)
    requires BracketBook(b, m) && forall i | 0 <= i < |lists| :: lists[i].listId < |b.lists|
    ensures BracketBook(AfterCancels(b, lists), m)
    decreases |lists|
  {
    if lists != [] {
      if IsNewOrder(lists[0].orders) {
        var c := CancelList(lists[0].listId);
        StepKeepsInv(b, c);
        StepKeepsBrackets(b, c, m);
        ListsKept(b, Step(b, c), m);
      }
      CancelsKeepBracketBook(AfterEntry(b, lists[0]), m, lists[1..]);
    }
  }

  lemma ListsKept(b: Book, r: Book, m: nat)
    requires |b.lists| == m && (forall k: nat | k < m :: ListOf(b, k)) && r.lists == b.lists
    ensures forall k: nat | k < m :: ListOf(r, k)
  {
    forall k: nat | k < m
      ensures ListOf(r, k)
    {
      assert ListOf(b, k);
    }
  }

  lemma PlacementSteps(b: Book, limit: real)
    requires Inv(b)
    ensures Inv(WithBracket(b, limit)) && Step(b, Bracket(limit)) == WithBracket(b, limit)
  {
    BracketStep(b, limit);
    StepKeepsInv(b, Bracket(limit));
  }

  lemma PlacementKeepsBracketBook(b: Book, m: nat, limit: real, r: Book)
    requires BracketBook(b, m) && r == WithBracket(b, limit)
    ensures BracketBook(r, m + 1)
  {
    PlacementSteps(b, limit);
    StepKeepsBrackets(b, Bracket(limit), m);
    assert r.lists == b.lists + [[3 * m, 3 * m + 1, 3 * m + 2]];
    ListsGrow(b, r, m);
  }

  lemma ListsGrow(b: Book, r: Book, m: nat)
    requires |b.lists| == m && (forall k: nat | k < m :: ListOf(b, k))
    requires r.lists == b.lists + [[3 * m, 3 * m + 1, 3 * m + 2]]
    ensures |r.lists| == m + 1 && forall k: nat | k < m + 1 :: ListOf(r, k)
  {
    forall k: nat | k < m + 1
      ensures ListOf(r, k)
    {
      assert k < m ==> ListOf(b, k);
    }
  }

  lemma TradingKeepsBracketBook(b: Book, m: nat, c: Candle)
    requires BracketBook(b, m)
    ensures BracketBook(Pass(b, c), m)
  {
    PassKeepsInv(b, c);
    StepKeepsBrackets(b, Tick(c), m);
    RunKeepsCore(b, 0, c);
    ListsKept(b, Pass(b, c), m);
  }

  lemma OnlyNewWorking(b: Book, limit: real, x: nat)
    requires Working(WithBracket(b, limit), x)
    ensures x == |b.orders| || Working(b, x)
  {
  }

  lemma HandlingKeepsBracketBook(b: Book, m: nat, lists: seq<OpenList>, limit: real)
    requires BracketBook(b, m) && Snapshot(b, lists)
    ensures BracketBook(Handle(b, lists, limit), m + 1) && OneWorking(Handle(b, lists, limit))
  {
    var a, r := AfterCancels(b, lists), Handle(b, lists, limit);
    CancelsKeepBracketBook(b, m, lists);
    PlacementKeepsBracketBook(a, m, limit, r);
    forall x: nat | Working(r, x)
      ensures x == |a.orders|
    {
      NoneLive(b, m, lists, x);
      OnlyNewWorking(a, limit, x);
    }
  }

  lemma AloneOfWorking(orders: seq<Order>, c: Candle, x: nat)
    requires x < |orders| && Fits(orders[x].group, |orders|)
    requires orders[x].group.Otoco? && orders[x].group.working == x
    ensures Alone(orders, x, c) == Touch(orders[x], c)
  {
  }

  lemma SameGroup(b: Book, c: Candle, x: nat)
    requires Inv(b) && x < |Pass(b, c).orders|
    ensures x < |b.orders| && Pass(b, c).orders[x].group == b.orders[x].group
  {
    PassKeepsInv(b, c);
    SameTerms(b, Pass(b, c), x);
  }

  lemma TradingWakesNone(b: Book, c: Candle, x: nat)
    requires Inv(b) && Working(Pass(b, c), x)
    ensures Working(b, x)
  {
    SameGroup(b, c, x);
    PassOrders(b, c, x);
    AloneOfWorking(b.orders, c, x);
  }

  lemma TradingKeepsOneWorking(b: Book, c: Candle, r: Book)
    requires Inv(b) && r == Step(b, Tick(c))
    ensures OneWorking(b) ==> OneWorking(r)
  {
    if OneWorking(b) {
      forall x: nat, y: nat | Working(r, x) && Working(r, y)
        ensures x == y
      {
        TradingWakesNone(b, c, x);
        TradingWakesNone(b, c, y);
      }
    }
  }

  /** r is what the engine becomes when these events and passes follow one another, each event with a
      complete snapshot. */
  ghost predicate Leads(b: Book, m: nat, happenings: seq<Happening>, r: Book)
    requires BracketBook(b, m)
    decreases |happenings|
  {
    if happenings == [] then r == b
    else match happenings[0]
    case Event(lists, limit) =>
      Snapshot(b, lists) && (HandlingKeepsBracketBook(b, m, lists, limit);
        Leads(Handle(b, lists, limit), m + 1, happenings[1..], r))
    case Trading(c) =>
      TradingKeepsBracketBook(b, m, c);
      Leads(Pass(b, c), m, happenings[1..], r)
  }

  /** The commands of a history. */
  function CommandsOf(happenings: seq<Happening>): seq<Command> {
    if happenings == [] then []
    else
      var rest := CommandsOf(happenings[1..]);
      match happenings[0]
      case Event(lists, limit) => EventCommands(lists, limit) + rest
      case Trading(c) => [Tick(c)] + rest
  }

  function Events(happenings: seq<Happening>): nat {
    if happenings == [] then 0 else Events(happenings[1..]) + if happenings[0].Event? then 1 else 0
  }

  lemma {:induction false} CountAppend(r: seq<Command>, s: seq<Command>)
    ensures CountBrackets(r + s) == CountBrackets(r) + CountBrackets(s)
  {
    if r == [] {
      assert r + s == s;
    } else {
      assert (r + s)[1..] == r[1..] + s;
      CountAppend(r[1..], s);
    }
  }

  lemma {:induction false} CommandsKind(happenings: seq<Happening>)
    ensures forall i | 0 <= i < |CommandsOf(happenings)| :: BracketCommand(CommandsOf(happenings)[i])
    ensures CountBrackets(CommandsOf(happenings)) == Events(happenings)
  {
    if happenings != [] {
      var rest := CommandsOf(happenings[1..]);
      CommandsKind(happenings[1..]);
      match happenings[0]
      case Event(lists, limit) =>
        EventCommandsKind(lists, limit);
        CountAppend(EventCommands(lists, limit), rest);
      case Trading(c) =>
        assert ([Tick(c)] + rest)[1..] == rest;
    }
  }

  lemma EventThen(b: Book, lists: seq<OpenList>, limit: real, rest: seq<Command>)
    requires Inv(b) && forall i | 0 <= i < |lists| :: lists[i].listId < |b.lists|
    ensures Ran(b, EventCommands(lists, limit) + rest) == Ran(Handle(b, lists, limit), rest)
  {
    EventExec(b, lists, limit);
    RanJoin(b, EventCommands(lists, limit), rest);
  }

  /** The first happening of a history: an event, or a pass. */
  lemma EventFirst(b: Book, m: nat, happenings: seq<Happening>, r: Book) returns (next: Book)
    requires BracketBook(b, m) && Leads(b, m, happenings, r) && happenings != [] && happenings[0].Event?
    ensures BracketBook(next, m + 1) && OneWorking(next) && Leads(next, m + 1, happenings[1..], r)
    ensures Snapshot(b, happenings[0].lists) && next == Handle(b, happenings[0].lists, happenings[0].limit)
  {
    next := Handle(b, happenings[0].lists, happenings[0].limit);
    HandlingKeepsBracketBook(b, m, happenings[0].lists, happenings[0].limit);
  }

  lemma TradingFirst(b: Book, m: nat, happenings: seq<Happening>, r: Book) returns (next: Book)
    requires BracketBook(b, m) && Leads(b, m, happenings, r) && happenings != [] && happenings[0].Trading?
    ensures BracketBook(next, m) && Leads(next, m, happenings[1..], r) && next == Pass(b, happenings[0].candle)
  {
    next := Pass(b, happenings[0].candle);
    TradingKeepsBracketBook(b, m, happenings[0].candle);
  }

  lemma HistoryStep(b: Book, m: nat, happenings: seq<Happening>, r: Book) returns (next: Book, k: nat)
    requires BracketBook(b, m) && Leads(b, m, happenings, r) && happenings != []
    ensures BracketBook(next, k) && Leads(next, k, happenings[1..], r)
    ensures OneWorking(b) ==> OneWorking(next)
    ensures Ran(b, CommandsOf(happenings)) == Ran(next, CommandsOf(happenings[1..]))
  {
    var rest := CommandsOf(happenings[1..]);
    if happenings[0].Event? {
      k := m + 1;
      next := EventFirst(b, m, happenings, r);
      EventThen(b, happenings[0].lists, happenings[0].limit, rest);
    } else {
      k := m;
      next := TradingFirst(b, m, happenings, r);
      TickIsPass(b, happenings[0].candle);
      TradingThen(b, happenings[0].candle, rest, next);
      TradingKeepsOneWorking(b, happenings[0].candle, next);
    }
  }

  lemma TickIsPass(b: Book, c: Candle)
    requires WellFormed(b)
    ensures Step(b, Tick(c)) == Pass(b, c)
  {
  }

  lemma TradingThen(b: Book, c: Candle, rest: seq<Command>, next: Book)
    requires Inv(b) && next == Step(b, Tick(c))
    ensures Ran(b, [Tick(c)] + rest) == Ran(next, rest)
  {
    assert Enabled(b, Tick(c));
    RanFirst(b, Tick(c), rest);
  }

  /** However events and passes interleave, at most one working order is live at any time. */
  lemma {:induction false} NeverTwoWorking(b: Book, m: nat, happenings: seq<Happening>, r: Book)
    requires BracketBook(b, m) && OneWorking(b) && Leads(b, m, happenings, r)
    ensures OneWorking(r)
    decreases |happenings|
  {
    if happenings != [] {
      var next, k := HistoryStep(b, m, happenings, r);
      NeverTwoWorking(next, k, happenings[1..], r);
    }
  }

  /** A history is a run of the engine. */
  lemma {:induction false} HistoryIsRun(b: Book, m: nat, happenings: seq<Happening>, r: Book)
    requires BracketBook(b, m) && Leads(b, m, happenings, r)
    ensures Ran(b, CommandsOf(happenings)) == Some(r)
    decreases |happenings|
  {
    if happenings != [] {
      var next, k := HistoryStep(b, m, happenings, r);
      HistoryIsRun(next, k, happenings[1..], r);
    }
  }

  /** Strategy001 over any history of complete snapshots and passes: one live working order at most, and
      an account that is exactly the sum of what its brackets, one for each event, have moved. */
  lemma EveryHistory(base: real, quote: real, happenings: seq<Happening>, r: Book)
    requires BracketBook(Opened(base, quote), 0) && Leads(Opened(base, quote), 0, happenings, r)
    ensures OneWorking(r) && Brackets(r.orders, Events(happenings))
    ensures r.base == base + Sum(Events(happenings), BaseByBracket(r))
    ensures r.quote == quote + Sum(Events(happenings), QuoteByBracket(r))
    ensures r.base >= base - Commissions(Events(happenings))
  {
    var b := Opened(base, quote);
    NeverTwoWorking(b, 0, happenings, r);
    HistoryIsRun(b, 0, happenings, r);
    CommandsKind(happenings);
    StrategyAccount(base, quote, CommandsOf(happenings));
    StrategyBound(base, quote, CommandsOf(happenings));
  }

  lemma OpenedBracketBook(base: real, quote: real)
    ensures BracketBook(Opened(base, quote), 0) && OneWorking(Opened(base, quote))
  {
    OpenedInv(base, quote);
  }
}
