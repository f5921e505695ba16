/** A whole run does to every order list what the passes and cancellations since its placement would
    do to that list alone, and moves the funds by the sum of the orders' own fills. */
module RunDecomposition {
  import opened Common
  import opened Numbers
  import opened Orders
  import opened Books
  import opened BookInvariant
  import opened Decomposition
  import opened PassTheorems
  import opened BookRuns

  // ---------- the reference: one list on its own ----------

  /** An order of the list, and its own fill if it has had one. */
  datatype Member = Member(order: Order, fill: Option<Fill>)

  /** The ids of a list, in the order in which they are stepped. */
  function Ids(g: Group): (r: seq<nat>)
    ensures forall x :: x in r <==> Has(g, x)
  {
    match g
    case Single(x) => [x]
    case Oto(w, p) => [w, p]
    case Oco(a, y) => [a, y]
    case Otoco(w, a, y) => [w, a, y]
  }

  /** Order id of the list after a candle that has turned it into o. */
  function Traded(m: Member, o: Order, id: nat, c: Candle): Member {
    Member(o, if o.status.Filled? && !m.order.status.Filled?
      then Some(Fill(id, o.terms.side, o.terms.quantity, FillValue(o.terms, c))) else m.fill)
  }

  function TradeAlone(g: Group, v: seq<Member>, c: Candle): (r: seq<Member>)
    requires |v| == |Ids(g)|
    ensures |r| == |v|
  {
    match g
    case Single(x) => [Traded(v[0], Touch(v[0].order, c), x, c)]
    case Oto(w, p) =>
      var s := StepOto(v[0].order, v[1].order, c);
      [Traded(v[0], s.0, w, c), Traded(v[1], s.1, p, c)]
    case Oco(a, y) =>
      var s := StepOco(v[0].order, v[1].order, c);
      [Traded(v[0], s.0, a, c), Traded(v[1], s.1, y, c)]
    case Otoco(w, a, y) =>
      var s := StepOtoco(v[0].order, v[1].order, v[2].order, c);
      [Traded(v[0], s.0, w, c), Traded(v[1], s.1, a, c), Traded(v[2], s.2, y, c)]
  }

  function CancelAlone(g: Group, v: seq<Member>, ids: seq<nat>): (r: seq<Member>)
    requires |v| == |Ids(g)|
    ensures |r| == |v|
  {
    seq(|v|, i requires 0 <= i < |v| =>
      if Ids(g)[i] in ids then v[i].(order := v[i].order.(status := OrderStatus.Canceled)) else v[i])
  }

  /** A command as far as it concerns the list; lists is the engine's table of list contents. */
  function StepAlone(g: Group, v: seq<Member>, lists: seq<seq<nat>>, m: Command): (r: seq<Member>)
    requires |v| == |Ids(g)|
    ensures |r| == |v|
  {
    match m
    case Tick(c) => TradeAlone(g, v, c)
    case Cancel(id) => CancelAlone(g, v, [id])
    case CancelList(l) => CancelAlone(g, v, if l < |lists| then lists[l] else [])
    case _ => v
  }

  function RunAlone(g: Group, v: seq<Member>, lists: seq<seq<nat>>, run: seq<Command>): (r: seq<Member>)
    requires |v| == |Ids(g)|
    ensures |r| == |v|
    decreases |run|
  {
    if run == [] then v else RunAlone(g, StepAlone(g, v, lists, run[0]), lists, run[1..])
  }

  /** The list that a placement creates when the table holds n orders, and its fresh orders. */
  function GroupOf(m: Command, n: nat): Group
    requires IsPlacement(m)
  {
    match m
    case Place(_) => Single(n)
    case PlaceOto(_, _) => Oto(n, n + 1)
    case PlaceOco(_, _) => Oco(n, n + 1)
    case PlaceLiveOco(_, _) => Oco(n, n + 1)
    case PlaceOtoco(_, _, _) => Otoco(n, n + 1, n + 2)
  }

  function FreshMember(t: Terms, status: OrderStatus, g: Group, x: nat): Member
    requires Proper(g)
  {
    Member(FreshOrder(t, status, g, x), None)
  }

  function FreshList(m: Command, n: nat): seq<Member>
    requires IsPlacement(m)
  {
    var g := GroupOf(m, n);
    match m
    case Place(t) => [FreshMember(t, New, g, n)]
    case PlaceOto(w, p) => [FreshMember(w, New, g, n), FreshMember(p, PendingNew, g, n + 1)]
    case PlaceOco(x, y) => [FreshMember(x, New, g, n), FreshMember(y, PendingNew, g, n + 1)]
    case PlaceLiveOco(x, y) => [FreshMember(x, New, g, n), FreshMember(y, New, g, n + 1)]
    case PlaceOtoco(w, x, y) =>
      [FreshMember(w, New, g, n), FreshMember(x, PendingNew, g, n + 1), FreshMember(y, PendingNew, g, n + 2)]
  }

  // ---------- the list within the engine ----------

  function EntryOf(log: seq<Fill>, x: nat): Option<Fill> {
    if log == [] then None
    else if log[|log| - 1].id == x then Some(log[|log| - 1])
    else EntryOf(log[..|log| - 1], x)
  }

  function At(b: Book, x: nat): Member
    requires x < |b.orders|
  {
    Member(b.orders[x], EntryOf(b.log, x))
  }

  function View(b: Book, g: Group): (r: seq<Member>)
    requires Fits(g, |b.orders|)
    ensures |r| == |Ids(g)|
  {
    match g
    case Single(x) => [At(b, x)]
    case Oto(w, p) => [At(b, w), At(b, p)]
    case Oco(a, y) => [At(b, a), At(b, y)]
    case Otoco(w, a, y) => [At(b, w), At(b, a), At(b, y)]
  }

  /** A pass logs exactly the orders that fire, each with the amounts of its terms. */
  function LoggedAs(o: Order, x: nat, c: Candle): Fill {
    Fill(x, o.terms.side, o.terms.quantity, FillValue(o.terms, c))
  }

  lemma VisitLogs(b: Book, id: nat, c: Candle, x: nat)
    requires id < |b.orders| && x < |b.orders|
    ensures EntryOf(Visit(b, id, c).log, x)
      == if x == id && Ready(b.orders[id], c) then Some(LoggedAs(b.orders[x], x, c)) else EntryOf(b.log, x)
  {
    if Ready(b.orders[id], c) {
      var log := Visit(b, id, c).log;
      assert log[..|log| - 1] == b.log;
    }
  }

  /** The entry that order x will have when rest has been visited. */
  ghost function EntryAhead(b: Book, rest: seq<nat>, c: Candle, x: nat): Option<Fill>
    requires x < |b.orders|
  {
    if Fires(b.orders, rest, c, x) then Some(LoggedAs(b.orders[x], x, c)) else EntryOf(b.log, x)
  }

  lemma NoEntryAhead(b: Book, c: Candle, x: nat)
    requires x < |b.orders|
    ensures EntryAhead(b, [], c, x) == EntryOf(b.log, x)
  {
  }

  lemma VisitKeepsEntryAhead(b: Book, i: nat, c: Candle, x: nat)
    requires Core(b) && i < |b.queue| && x < |b.orders|
    ensures b.queue[i] < |b.orders|
    ensures var r := Visit(b, b.queue[i], c);
      && |r.orders| == |b.orders| && i + 1 <= |r.queue|
      && EntryAhead(r, r.queue[i + 1..], c, x) == EntryAhead(b, b.queue[i..], c, x)
  {
    VisitFires(b, i, c, x);
    VisitLogs(b, b.queue[i], c, x);
  }

  lemma {:induction false} RunLogs(b: Book, i: nat, c: Candle, x: nat)
    requires Core(b) && i <= |b.queue| && x < |b.orders|
    ensures EntryOf(Run(b, i, c).log, x) == EntryAhead(b, b.queue[i..], c, x)
    decreases |b.orders| - i
  {
    if i == |b.queue| {
      assert b.queue[i..] == [];
      NoEntryAhead(b, c, x);
    } else {
      RunUnfold(b, i, c);
      VisitKeepsCore(b, b.queue[i], c);
      VisitKeepsEntryAhead(b, i, c, x);
      RunLogs(Visit(b, b.queue[i], c), i + 1, c, x);
    }
  }

  lemma VisitFires(b: Book, i: nat, c: Candle, x: nat)
    requires Core(b) && i < |b.queue| && x < |b.orders|
    ensures b.queue[i] < |b.orders|
    ensures var r := Visit(b, b.queue[i], c);
      && |r.orders| == |b.orders| && i + 1 <= |r.queue| && r.orders[x].terms == b.orders[x].terms
      && Fires(r.orders, r.queue[i + 1..], c, x) == (x != b.queue[i] && Fires(b.orders, b.queue[i..], c, x))
      && Fires(b.orders, b.queue[i..], c, b.queue[i]) == Ready(b.orders[b.queue[i]], c)
  {
    RestAtVisit(b, i, c);
    VisitTerms(b, b.queue[i], c);
    OthersFireAlike(b, b.queue[i..], b.queue[i], c, x);
  }

  lemma PassAt(b: Book, c: Candle, x: nat)
    requires Inv(b) && x < |b.orders|
    ensures x < |Pass(b, c).orders| && Fits(b.orders[x].group, |b.orders|)
    ensures At(Pass(b, c), x) == Traded(At(b, x), Alone(b.orders, x, c), x, c)
  {
    PassOrders(b, c, x);
    RunLogs(b, 0, c, x);
    assert b.queue[0..] == b.queue;
    StartIsAlone(b, c, x);
  }

  /** r is b after each order of g has been stepped with its list alone. */
  ghost predicate SteppedAlone(b: Book, r: Book, c: Candle, g: Group) {
    forall x: nat {:trigger Has(g, x)} | Has(g, x) ::
      && x < |b.orders| == |r.orders|
      && Fits(b.orders[x].group, |b.orders|)
      && r.orders[x].group == b.orders[x].group
      && At(r, x) == Traded(At(b, x), Alone(b.orders, x, c), x, c)
  }

  lemma ViewOfStepped(b: Book, r: Book, c: Candle, g: Group)
    requires Present(b.orders, g) && SteppedAlone(b, r, c, g)
    ensures Present(r.orders, g) && View(r, g) == TradeAlone(g, View(b, g), c)
  {
    match g
    case Single(x) => assert Has(g, x);
    case Oto(w, p) => assert Has(g, w) && Has(g, p);
    case Oco(a, y) => assert Has(g, a) && Has(g, y);
    case Otoco(w, a, y) => assert Has(g, w) && Has(g, a) && Has(g, y);
  }

  lemma TickMeetsAlone(b: Book, c: Candle, g: Group)
    requires Inv(b) && Present(b.orders, g)
    ensures Present(Pass(b, c).orders, g) && View(Pass(b, c), g) == TradeAlone(g, View(b, g), c)
  {
    var r := Pass(b, c);
    PassKeepsInv(b, c);
    forall x: nat | Has(g, x)
      ensures x < |b.orders| == |r.orders| && Fits(b.orders[x].group, |b.orders|)
      ensures r.orders[x].group == b.orders[x].group && At(r, x) == Traded(At(b, x), Alone(b.orders, x, c), x, c)
    {
      PassAt(b, c, x);
    }
    ViewOfStepped(b, r, c, g);
  }

  lemma CancelMeetsAlone(b: Book, ids: seq<nat>, g: Group)
    requires Present(b.orders, g)
    ensures Present(CancelOrders(b, ids).orders, g)
    ensures View(CancelOrders(b, ids), g) == CancelAlone(g, View(b, g), ids)
  {
  }

  lemma PlacementMeetsAlone(b: Book, m: Command, g: Group)
    requires WellFormed(b) && IsPlacement(m) && Present(b.orders, g)
    ensures Present(Step(b, m).orders, g) && View(Step(b, m), g) == View(b, g)
  {
    PlacementIsBatch(b, m);
    var r := Step(b, m);
    assert forall x | 0 <= x < |b.orders| :: r.orders[x] == b.orders[x];
  }

  lemma StepMeetsAlone(b: Book, m: Command, g: Group, lists: seq<seq<nat>>)
    requires Inv(b) && Enabled(b, m) && Present(b.orders, g) && b.lists <= lists
    ensures Present(Step(b, m).orders, g) && View(Step(b, m), g) == StepAlone(g, View(b, g), lists, m)
  {
    match m
    case Tick(c) => TickMeetsAlone(b, c, g);
    case Cancel(id) => CancelMeetsAlone(b, [id], g);
    case CancelList(l) => CancelMeetsAlone(b, b.lists[l], g);
    case _ => PlacementMeetsAlone(b, m, g);
  }

  /** From any point of a run on, a list fares as it would alone. */
  lemma {:induction false} RunMeetsAlone(b: Book, run: seq<Command>, g: Group, lists: seq<seq<nat>>)
    requires Inv(b) && Legal(b, run) && Present(b.orders, g) && Exec(b, run).lists == lists
    ensures Present(Exec(b, run).orders, g) && View(Exec(b, run), g) == RunAlone(g, View(b, g), lists, run)
    decreases |run|
  {
    if run != [] {
      var m := run[0];
      ExecKeepsInv(b, run);
      StepKeepsInv(b, m);
      StepMeetsAlone(b, m, g, lists);
      RunMeetsAlone(Step(b, m), run[1..], g, lists);
    }
  }

  // ---------- from the placement on ----------

  function Size(m: Command): nat {
    match m
    case Place(_) => 1
    case PlaceOto(_, _) => 2
    case PlaceOco(_, _) => 2
    case PlaceLiveOco(_, _) => 2
    case PlaceOtoco(_, _, _) => 3
    case _ => 0
  }

  function TableSize(run: seq<Command>): nat {
    if run == [] then 0 else Size(run[0]) + TableSize(run[1..])
  }

  lemma {:induction false} TableSizeIs(b: Book, run: seq<Command>)
    requires Inv(b) && Legal(b, run)
    ensures |Exec(b, run).orders| == |b.orders| + TableSize(run)
    decreases |run|
  {
    if run != [] {
      StepKeepsInv(b, run[0]);
      if run[0].Tick? {
        PassKeepsInv(b, run[0].candle);
      }
      TableSizeIs(Step(b, run[0]), run[1..]);
    }
  }

  lemma FreshNotLogged(log: seq<Fill>, x: nat)
    requires forall i | 0 <= i < |log| :: log[i].id != x
    ensures EntryOf(log, x).None?
  {
  }

  lemma PlacedView(b: Book, m: Command)
    requires Inv(b) && IsPlacement(m)
    ensures var g := GroupOf(m, |b.orders|);
      Present(Step(b, m).orders, g) && View(Step(b, m), g) == FreshList(m, |b.orders|)
  {
    forall x: nat | x >= |b.orders|
      ensures EntryOf(b.log, x).None?
    {
      assert forall i | 0 <= i < |b.log| :: EntrySound(b.orders, b.log[i]);
      FreshNotLogged(b.log, x);
    }
  }

  /** The decomposition theorem over whole runs. Whatever else a run does, the list placed by one of
      its commands ends in the state, and has the fills, that the passes and cancellations after its
      placement give that list alone. */
  lemma RunDecomposes(base: real, quote: real, before: seq<Command>, m: Command, after: seq<Command>)
    requires Inv(Opened(base, quote)) && Legal(Opened(base, quote), before + [m] + after) && IsPlacement(m)
    ensures var r := Exec(Opened(base, quote), before + [m] + after);
      var n := TableSize(before);
      && Present(r.orders, GroupOf(m, n))
      && View(r, GroupOf(m, n)) == RunAlone(GroupOf(m, n), FreshList(m, n), r.lists, after)
  {
    var b0 := Opened(base, quote);
    assert before + [m] + after == before + ([m] + after);
    ExecSplit(b0, before, [m] + after);
    var b := Exec(b0, before);
    TableSizeIs(b0, before);
    ExecFirst(b, m, after);
    PlacedView(b, m);
    RunMeetsAlone(Step(b, m), after, GroupOf(m, |b.orders|), Exec(Step(b, m), after).lists);
  }

  /** Order x is created by command k of the run. */
  predicate PlacedBy(run: seq<Command>, k: nat, x: nat) {
    k < |run| && IsPlacement(run[k]) && Has(GroupOf(run[k], TableSize(run[..k])), x)
  }

  lemma {:induction false} EveryIdPlaced(run: seq<Command>, x: nat)
    requires x < TableSize(run)
    ensures exists k: nat :: PlacedBy(run, k, x)
  {
    var last := |run| - 1;
    var front := run[..last];
    TableSizeAppend(front, run[last]);
    assert front + [run[last]] == run;
    if x < TableSize(front) {
      EveryIdPlaced(front, x);
      var k: nat :| PlacedBy(front, k, x);
      assert front[..k] == run[..k];
      assert PlacedBy(run, k, x);
    } else {
      assert PlacedBy(run, last, x);
    }
  }

  lemma {:induction false} TableSizeAppend(run: seq<Command>, m: Command)
    ensures TableSize(run + [m]) == TableSize(run) + Size(m)
  {
    if run == [] {
      assert [m][1..] == [];
    } else {
      assert (run + [m])[1..] == run[1..] + [m];
      TableSizeAppend(run[1..], m);
    }
  }

  /** Every order of every run belongs to a list placed by one of its commands, so that the theorem
      above covers the whole table. */
  lemma EveryOrderPlaced(base: real, quote: real, run: seq<Command>, x: nat)
    requires Inv(Opened(base, quote)) && Legal(Opened(base, quote), run)
    requires x < |Exec(Opened(base, quote), run).orders|
    ensures exists k: nat :: PlacedBy(run, k, x)
  {
    TableSizeIs(Opened(base, quote), run);
    EveryIdPlaced(run, x);
  }

  // ---------- the funds ----------

  function BaseOf(f: Option<Fill>): real {
    if f.Some? then BaseDelta(f.value.side, f.value.base) else 0.0
  }

  function QuoteOf(f: Option<Fill>): real {
    if f.Some? then QuoteDelta(f.value.side, f.value.quote) else 0.0
  }

  /** What the orders' own fills come to. */
  ghost function BaseEntries(log: seq<Fill>): nat -> real {
    (x: nat) => BaseOf(EntryOf(log, x))
  }

  ghost function QuoteEntries(log: seq<Fill>): nat -> real {
    (x: nat) => QuoteOf(EntryOf(log, x))
  }

  lemma {:induction false} LogByOrder(n: nat, log: seq<Fill>)
    requires forall i, j | 0 <= i < j < |log| :: log[i].id != log[j].id
    requires forall i | 0 <= i < |log| :: log[i].id < n
    ensures LogBase(log) == Sum(n, BaseEntries(log)) && LogQuote(log) == Sum(n, QuoteEntries(log))
  {
    if log == [] {
      SumZero(n, BaseEntries(log));
      SumZero(n, QuoteEntries(log));
    } else {
      var front, last := log[..|log| - 1], log[|log| - 1];
      LogByOrder(n, front);
      FreshNotLogged(front, last.id);
      SumBump(n, BaseEntries(front), BaseEntries(log), last.id);
      SumBump(n, QuoteEntries(front), QuoteEntries(log), last.id);
    }
  }

  /** In every run the funds are the initial ones plus the sum over the orders of what each order's
      own fill, as its list alone determines it, has paid. */
  lemma FundsByOrder(base: real, quote: real, run: seq<Command>)
    requires Inv(Opened(base, quote)) && Legal(Opened(base, quote), run)
    ensures var r := Exec(Opened(base, quote), run);
      && r.base == base + Sum(|r.orders|, BaseEntries(r.log))
      && r.quote == quote + Sum(|r.orders|, QuoteEntries(r.log))
  {
    var r := Exec(Opened(base, quote), run);
    ExecKeepsInv(Opened(base, quote), run);
    Ledger(base, quote, run);
    assert forall i | 0 <= i < |r.log| :: EntrySound(r.orders, r.log[i]);
    LogByOrder(|r.orders|, r.log);
  }
}
