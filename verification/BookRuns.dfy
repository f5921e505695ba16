/** Theorems about whole runs: any interleaving of client commands and passes. */
module BookRuns {
  import opened Common
  import opened Numbers
  import opened Orders
  import opened Books
  import opened BookInvariant
  import opened Decomposition
  import opened PassTheorems

  /** The engine as constructed. */
  function Opened(base: real, quote: real): Book {
    Book(base, quote, [], [], [], [], [])
  }

  /** Every command only uses ids the engine has handed out. */
  ghost predicate Legal(b: Book, run: seq<Command>)
    requires Inv(b)
    decreases |run|
  {
    run == [] || (Enabled(b, run[0]) && (StepKeepsInv(b, run[0]); Legal(Step(b, run[0]), run[1..])))
  }

  ghost function Exec(b: Book, run: seq<Command>): Book
    requires Inv(b) && Legal(b, run)
    decreases |run|
  {
    if run == [] then b else
      StepKeepsInv(b, run[0]);
      Exec(Step(b, run[0]), run[1..])
  }

  /** A run told by its first command, and in two parts. */
  lemma ExecFirst(b: Book, m: Command, rest: seq<Command>)
    requires Inv(b)
    ensures Legal(b, [m] + rest) <==> Enabled(b, m) && Inv(Step(b, m)) && Legal(Step(b, m), rest)
    ensures Legal(b, [m] + rest) ==> Exec(b, [m] + rest) == Exec(Step(b, m), rest)
  {
    assert ([m] + rest)[1..] == rest;
    if Enabled(b, m) {
      StepKeepsInv(b, m);
    }
  }

  lemma ExecOne(b: Book, m: Command)
    requires Inv(b) && Enabled(b, m)
    ensures Inv(Step(b, m)) && Legal(b, [m]) && Exec(b, [m]) == Step(b, m)
  {
    StepKeepsInv(b, m);
    assert [m] + [] == [m];
    ExecFirst(b, m, []);
  }

  /** Where a run leads, if it is legal. */
  ghost function Ran(b: Book, run: seq<Command>): Option<Book> {
    if Inv(b) && Legal(b, run) then Some(Exec(b, run)) else None
  }

  lemma RanFirst(b: Book, m: Command, rest: seq<Command>)
    requires Inv(b)
    ensures Ran(b, [m] + rest) == if Enabled(b, m) then Ran(Step(b, m), rest) else None
  {
    ExecFirst(b, m, rest);
    if Enabled(b, m) {
      StepKeepsInv(b, m);
    }
  }

  lemma {:induction false} RanJoin(b: Book, first: seq<Command>, rest: seq<Command>)
    requires Inv(b)
    ensures Ran(b, first + rest) == if Ran(b, first).Some? then Ran(Ran(b, first).value, rest) else None
    decreases |first|
  {
    if first == [] {
      assert first + rest == rest;
    } else {
      var m, tail := first[0], first[1..];
      assert first + rest == [m] + (tail + rest) && first == [m] + tail;
      RanFirst(b, m, tail + rest);
      RanFirst(b, m, tail);
      if Enabled(b, m) {
        StepKeepsInv(b, m);
        RanJoin(Step(b, m), tail, rest);
      }
    }
  }

  lemma ExecSplit(b: Book, first: seq<Command>, rest: seq<Command>)
    requires Inv(b) && Legal(b, first + rest)
    ensures Legal(b, first) && Inv(Exec(b, first)) && Legal(Exec(b, first), rest)
    ensures Exec(b, first + rest) == Exec(Exec(b, first), rest)
  {
    RanJoin(b, first, rest);
    assert Ran(b, first + rest).Some?;
  }

  lemma OpenedInv(base: real, quote: real)
    ensures Inv(Opened(base, quote)) && TriggerSafe(Opened(base, quote))
  {
  }

  lemma ExtendsTransitive(a: Book, b: Book, c: Book)
    requires Extends(a, b) && Extends(b, c)
    ensures Extends(a, c)
  {
    forall x | 0 <= x < |a.orders|
      ensures c.orders[x] == a.orders[x].(status := c.orders[x].status)
    {
      assert b.orders[x] == a.orders[x].(status := b.orders[x].status);
    }
  }

  /** Every run keeps the invariant; it only appends to the fill log and never rewires an order. */
  lemma {:induction false} ExecKeepsInv(b: Book, run: seq<Command>)
    requires Inv(b) && Legal(b, run)
    ensures Inv(Exec(b, run)) && Extends(b, Exec(b, run))
    decreases |run|
  {
    if run != [] {
      StepKeepsInv(b, run[0]);
      ExecKeepsInv(Step(b, run[0]), run[1..]);
      ExtendsTransitive(b, Step(b, run[0]), Exec(b, run));
    }
  }

  // ---------- mutual exclusion ----------

  lemma SiblingsSymmetric(orders: seq<Order>, x: nat, y: nat)
    requires Wired(orders) && x < |orders| && y in orders[x].canceled
    ensures y < |orders| && Siblings(orders[x].group, x, y) && Siblings(orders[y].group, y, x)
  {
    TriggeredIsTriggers(orders, x);
    EdgesOf(orders);
  }

  /** Of two orders wired to cancel each other, at most one is ever in the log, and when one is,
      the other one is Canceled. */
  lemma MutualExclusion(b: Book, x: nat, y: nat)
    requires Inv(b) && x < |b.orders| && y in b.orders[x].canceled
    ensures y < |b.orders|
    ensures !(Logged(b.log, x) && Logged(b.log, y))
    ensures Logged(b.log, x) ==> b.orders[y].status.Canceled?
    ensures Logged(b.log, y) ==> b.orders[x].status.Canceled?
    ensures !(b.orders[x].status.Filled? && b.orders[y].status.Filled?)
  {
    SiblingsSymmetric(b.orders, x, y);
  }

  /** The same over whole runs of the engine. */
  lemma RunExclusion(base: real, quote: real, run: seq<Command>, x: nat, y: nat)
    requires Inv(Opened(base, quote)) && Legal(Opened(base, quote), run)
    requires var b := Exec(Opened(base, quote), run); x < |b.orders| && y in b.orders[x].canceled
    ensures var b := Exec(Opened(base, quote), run);
      y < |b.orders| && !(Logged(b.log, x) && Logged(b.log, y)) && (Logged(b.log, x) ==> b.orders[y].status.Canceled?)
  {
    ExecKeepsInv(Opened(base, quote), run);
    MutualExclusion(Exec(Opened(base, quote), run), x, y);
  }

  /** The queue in every run: no id twice, every live order, no pending one, and the live ones in
      the order of their activation. */
  lemma RunQueueAgrees(base: real, quote: real, run: seq<Command>, x: nat)
    requires Inv(Opened(base, quote)) && Legal(Opened(base, quote), run)
    ensures var b := Exec(Opened(base, quote), run);
      && Distinct(b.queue)
      && (x < |b.orders| && b.orders[x].status.New? ==> x in b.queue)
      && (x in b.queue ==> x < |b.orders| && !b.orders[x].status.PendingNew?)
      && LiveOnly(b.queue, b.orders) == LiveOnly(b.activated, b.orders)
  {
    ExecKeepsInv(Opened(base, quote), run);
  }

  /** Once x has filled, its sibling is Canceled in every later state and never fills. */
  lemma ExclusionForever(b: Book, run: seq<Command>, x: nat, y: nat)
    requires Inv(b) && Legal(b, run) && x < |b.orders| && y in b.orders[x].canceled && Logged(b.log, x)
    ensures y < |Exec(b, run).orders| && Exec(b, run).orders[y].status.Canceled?
    ensures !Logged(Exec(b, run).log, y)
  {
    var r := Exec(b, run);
    ExecKeepsInv(b, run);
    assert r.orders[x] == b.orders[x].(status := r.orders[x].status);
    LoggedGrows(b.log, r.log, x);
    MutualExclusion(r, x, y);
  }

  // ---------- the pair made by NewOcoOrderList ----------

  /** Order x is half of a pair that nothing triggers, is not live, and has not filled. */
  ghost predicate Asleep(b: Book, x: nat) {
    && x < |b.orders|
    && b.orders[x].group.Oco?
    && (b.orders[x].status.PendingNew? || b.orders[x].status.Canceled?)
    && !Logged(b.log, x)
  }

  lemma VisitKeepsAsleep(b: Book, id: nat, c: Candle, x: nat)
    requires Wired(b.orders) && id < |b.orders| && Asleep(b, x)
    ensures Asleep(Visit(b, id, c), x)
  {
    if Ready(b.orders[id], c) {
      FillIsFilling(b, id, c);
      LoggedAfterFill(b, id, Visit(b, id, c), x);
    }
  }

  lemma {:induction false} RunKeepsAsleep(b: Book, i: nat, c: Candle, x: nat)
    requires WellFormed(b) && i <= |b.queue| && Asleep(b, x)
    ensures Asleep(Run(b, i, c), x)
    decreases |b.orders| - i
  {
    if i < |b.queue| {
      RunUnfold(b, i, c);
      VisitKeepsAsleep(b, b.queue[i], c, x);
      RunKeepsAsleep(Visit(b, b.queue[i], c), i + 1, c, x);
    }
  }

  lemma StepKeepsAsleep(b: Book, m: Command, x: nat)
    requires WellFormed(b) && Enabled(b, m) && Asleep(b, x)
    ensures Asleep(Step(b, m), x)
  {
    if m.Tick? {
      RunKeepsAsleep(b, 0, m.candle, x);
    }
  }

  lemma {:induction false} ExecKeepsAsleep(b: Book, run: seq<Command>, x: nat)
    requires Inv(b) && Legal(b, run) && Asleep(b, x)
    ensures Asleep(Exec(b, run), x)
    decreases |run|
  {
    if run != [] {
      StepKeepsInv(b, run[0]);
      StepKeepsAsleep(b, run[0], x);
      ExecKeepsAsleep(Step(b, run[0]), run[1..], x);
    }
  }

  /** The below order of a NewOcoOrderList never fills: nothing triggers it, whatever the client and
      the candles do afterwards. */
  lemma OcoBelowNeverFills(b: Book, above: Terms, below: Terms, run: seq<Command>)
    requires Inv(b) && Inv(Step(b, PlaceOco(above, below))) && Legal(Step(b, PlaceOco(above, below)), run)
    ensures var r, x := Exec(Step(b, PlaceOco(above, below)), run), |b.orders| + 1;
      x < |r.orders| && !r.orders[x].status.New? && !r.orders[x].status.Filled? && !Logged(r.log, x)
  {
    var placed := Step(b, PlaceOco(above, below));
    forall i | 0 <= i < |b.log|
      ensures b.log[i].id < |b.orders|
    {
      assert EntrySound(b.orders, b.log[i]);
    }
    assert Asleep(placed, |b.orders| + 1);
    ExecKeepsAsleep(placed, run, |b.orders| + 1);
  }

  // ---------- causality and the fill log ----------

  /** A pending order's fill comes strictly after the fill of the order that triggers it, and no
      order fills twice. */
  lemma LogCausal(b: Book, w: nat, i: nat)
    requires Inv(b) && i < |b.log| && w < |b.orders| && b.log[i].id in b.orders[w].triggered
    ensures exists j :: 0 <= j < i && b.log[j].id == w
    ensures forall j | 0 <= j < |b.log| && j != i :: b.log[j].id != b.log[i].id
  {
    TriggeredIsTriggers(b.orders, w);
    assert Logged(b.log[..i], w);
    var j :| 0 <= j < i && b.log[..i][j].id == w;
    assert b.log[j].id == w;
  }

  // ---------- the ledger ----------

  function LogBase(log: seq<Fill>): real {
    if log == [] then 0.0 else
      var f := log[|log| - 1];
      LogBase(log[..|log| - 1]) + BaseDelta(f.side, f.base)
  }

  function LogQuote(log: seq<Fill>): real {
    if log == [] then 0.0 else
      var f := log[|log| - 1];
      LogQuote(log[..|log| - 1]) + QuoteDelta(f.side, f.quote)
  }

  lemma VisitKeepsLedger(b: Book, id: nat, c: Candle)
    requires id < |b.orders|
    ensures Visit(b, id, c).base - LogBase(Visit(b, id, c).log) == b.base - LogBase(b.log)
    ensures Visit(b, id, c).quote - LogQuote(Visit(b, id, c).log) == b.quote - LogQuote(b.log)
  {
    var log := Visit(b, id, c).log;
    if Ready(b.orders[id], c) {
      assert log[..|log| - 1] == b.log;
    }
  }

  lemma {:induction false} RunKeepsLedger(b: Book, i: nat, c: Candle)
    requires WellFormed(b) && i <= |b.queue|
    ensures Run(b, i, c).base - LogBase(Run(b, i, c).log) == b.base - LogBase(b.log)
    ensures Run(b, i, c).quote - LogQuote(Run(b, i, c).log) == b.quote - LogQuote(b.log)
    decreases |b.orders| - i
  {
    if i < |b.queue| {
      RunUnfold(b, i, c);
      VisitKeepsLedger(b, b.queue[i], c);
      RunKeepsLedger(Visit(b, b.queue[i], c), i + 1, c);
    }
  }

  lemma StepKeepsLedger(b: Book, m: Command)
    requires WellFormed(b) && Enabled(b, m)
    ensures Step(b, m).base - LogBase(Step(b, m).log) == b.base - LogBase(b.log)
    ensures Step(b, m).quote - LogQuote(Step(b, m).log) == b.quote - LogQuote(b.log)
  {
    if m.Tick? {
      RunKeepsLedger(b, 0, m.candle);
    }
  }

  lemma {:induction false} ExecKeepsLedger(b: Book, run: seq<Command>)
    requires Inv(b) && Legal(b, run)
    ensures Exec(b, run).base - LogBase(Exec(b, run).log) == b.base - LogBase(b.log)
    ensures Exec(b, run).quote - LogQuote(Exec(b, run).log) == b.quote - LogQuote(b.log)
    decreases |run|
  {
    if run != [] {
      StepKeepsInv(b, run[0]);
      StepKeepsLedger(b, run[0]);
      ExecKeepsLedger(Step(b, run[0]), run[1..]);
    }
  }

  /** In every run the funds are the initial ones plus what the log accounts for. */
  lemma Ledger(base: real, quote: real, run: seq<Command>)
    requires Inv(Opened(base, quote)) && Legal(Opened(base, quote), run)
    ensures var b := Exec(Opened(base, quote), run);
      b.base == base + LogBase(b.log) && b.quote == quote + LogQuote(b.log)
  {
    ExecKeepsLedger(Opened(base, quote), run);
  }

  // ---------- which runs keep the trigger handler's assertion ----------

  /** Order id is pending behind a working order that is still live. */
  ghost predicate BehindLive(b: Book, id: nat) {
    exists w: nat :: w < |b.orders| && b.orders[w].status.New? && id in b.orders[w].triggered
  }

  /** Cancelling changes statuses only, so trigger safety is lost only through a leg among ids
      whose working order is not. */
  lemma CancelSafety(b: Book, ids: seq<nat>)
    requires TriggerSafe(b)
    requires forall w: nat, p: nat {:trigger p in b.orders[w].triggered} |
      w < |b.orders| && b.orders[w].status.New? && p in b.orders[w].triggered && p in ids :: w in ids
    ensures TriggerSafe(CancelOrders(b, ids))
  {
    var r := CancelOrders(b, ids);
    forall w: nat, p: nat | w < |r.orders| && r.orders[w].status.New? && p in r.orders[w].triggered
      ensures p < |r.orders| && r.orders[p].status.PendingNew?
    {
      assert r.orders[w] == b.orders[w] && p in b.orders[w].triggered;
      assert p in ids ==> w in ids;
      assert p < |b.orders| && b.orders[p].status.PendingNew?;
    }
  }

  lemma CancelOneSafety(b: Book, id: nat)
    requires Wired(b.orders) && TriggerSafe(b) && id < |b.orders|
    ensures TriggerSafe(CancelOrders(b, [id])) <==> !BehindLive(b, id)
  {
    if w: nat :| w < |b.orders| && b.orders[w].status.New? && id in b.orders[w].triggered {
      var r := CancelOrders(b, [id]);
      LegInTable(b.orders, w, id);
      assert r.orders[w].status.New? && id in r.orders[w].triggered && !r.orders[id].status.PendingNew?;
    } else {
      CancelSafety(b, [id]);
    }
  }

  lemma CancelListSafety(b: Book, l: nat)
    requires Wired(b.orders) && TriggerSafe(b) && l < |b.lists| && WholeGroup(b.orders, b.lists[l])
    ensures TriggerSafe(CancelOrders(b, b.lists[l]))
  {
    forall w: nat, p: nat | w < |b.orders| && p in b.orders[w].triggered && p in b.lists[l]
      ensures w in b.lists[l]
    {
      LegInTable(b.orders, w, p);
      GroupPresent(b.orders, w);
    }
    CancelSafety(b, b.lists[l]);
  }

  lemma PlacementSafety(b: Book, r: Book)
    requires Inv(b) && TriggerSafe(b) && Placed(b, r)
    ensures TriggerSafe(r)
  {
    var added, live, lists, g :| Appending(b, r, added, live, lists, g);
    AppendKeepsWired(b, r, added, live, lists, g);
    EdgesOf(b.orders);
    forall w: nat, p: nat | w < |r.orders| && r.orders[w].status.New? && p in r.orders[w].triggered
      ensures p < |r.orders| && r.orders[p].status.PendingNew?
    {
      TriggeredIsTriggers(r.orders, w);
      AppendEdge(b, r, added, live, lists, g, w, p);
      assert w < |b.orders| ==> p in b.orders[w].triggered;
      assert w >= |b.orders| ==> p !in live;
    }
  }

  /** The client protocol: a pending order is not cancelled on its own while its working order is
      live. */
  ghost predicate Protocol(b: Book, m: Command) {
    m.Cancel? ==> !BehindLive(b, m.id)
  }

  /** One command keeps the book trigger-safe exactly when it follows the protocol. */
  lemma StepSafety(b: Book, m: Command)
    requires Inv(b) && TriggerSafe(b) && Enabled(b, m)
    ensures TriggerSafe(Step(b, m)) <==> Protocol(b, m)
  {
    match m
    case Cancel(id) => CancelOneSafety(b, id);
    case CancelList(l) =>
      assert WholeGroup(b.orders, b.lists[l]);
      CancelListSafety(b, l);
    case Tick(c) => SafeRunIsAssertFree(b, 0, c);
    case _ =>
      PlacementIsBatch(b, m);
      PlacementSafety(b, Step(b, m));
  }

  ghost predicate Obeys(b: Book, run: seq<Command>)
    requires Inv(b) && Legal(b, run)
    decreases |run|
  {
    run == [] || (Protocol(b, run[0]) && (StepKeepsInv(b, run[0]); Obeys(Step(b, run[0]), run[1..])))
  }

  /** The assertion cannot fail: not now, on any candle, nor after any prefix of the run. */
  ghost predicate AlwaysAssertFree(b: Book, run: seq<Command>)
    requires Inv(b) && Legal(b, run)
    decreases |run|
  {
    && NeverFails(b)
    && (run == [] || (StepKeepsInv(b, run[0]); AlwaysAssertFree(Step(b, run[0]), run[1..])))
  }

  /** The trigger handler's assertion is safe along a whole run exactly when every command of the
      run follows the protocol. */
  lemma {:induction false} AssertSafetyExactly(b: Book, run: seq<Command>)
    requires Inv(b) && TriggerSafe(b) && Legal(b, run)
    ensures AlwaysAssertFree(b, run) <==> Obeys(b, run)
    decreases |run|
  {
    AssertFreeExactly(b);
    if run != [] {
      StepKeepsInv(b, run[0]);
      StepSafety(b, run[0]);
      AssertFreeExactly(Step(b, run[0]));
      if Protocol(b, run[0]) {
        AssertSafetyExactly(Step(b, run[0]), run[1..]);
      } else {
        NotAssertFree(Step(b, run[0]), run[1..]);
      }
    }
  }

  lemma NotAssertFree(b: Book, run: seq<Command>)
    requires Inv(b) && Legal(b, run) && !NeverFails(b)
    ensures !AlwaysAssertFree(b, run)
  {
  }

  /** The protocol can be broken: cancel the pending order of a fresh OTO pair. */
  lemma ProtocolCanBreak(working: Terms, pending: Terms)
    ensures var b := WithOto(Opened(0.0, 0.0), working, pending);
      Inv(b) && TriggerSafe(b) && !Protocol(b, Cancel(1)) && !TriggerSafe(Step(b, Cancel(1)))
  {
    var b0 := Opened(0.0, 0.0);
    var b := WithOto(b0, working, pending);
    OpenedInv(0.0, 0.0);
    StepKeepsInv(b0, PlaceOto(working, pending));
    StepSafety(b0, PlaceOto(working, pending));
    assert b == Step(b0, PlaceOto(working, pending));
    assert b.orders[0].status.New? && 1 in b.orders[0].triggered;
    StepSafety(b, Cancel(1));
  }
}
