/** What one call of update_new_orders achieves. */
module PassTheorems {
  import opened Common
  import opened Numbers
  import opened Orders
  import opened Books
  import opened BookInvariant
  import opened Decomposition

  // ---------- completeness and idempotence ----------

  lemma AloneLeavesNothing(orders: seq<Order>, x: nat, c: Candle)
    requires x < |orders| && Present(orders, orders[x].group) && Has(orders[x].group, x)
    ensures !Ready(Alone(orders, x, c), c)
  {
  }

  /** After a pass no live order is left that the candle reaches, whether it was live before the
      pass or became live during it. */
  lemma PassComplete(b: Book, c: Candle, x: nat)
    requires Inv(b) && x < |Pass(b, c).orders|
    ensures !Ready(Pass(b, c).orders[x], c)
  {
    PassOrders(b, c, x);
    GroupPresent(b.orders, x);
    AloneLeavesNothing(b.orders, x, c);
  }

  lemma PassOrders(b: Book, c: Candle, x: nat)
    requires Inv(b)
    ensures |Pass(b, c).orders| == |b.orders|
    ensures x < |b.orders| ==> Fits(b.orders[x].group, |b.orders|) && Pass(b, c).orders[x] == Alone(b.orders, x, c)
  {
    var base := (i: nat) => if i < |b.orders| then BaseWorth(b.orders[i]) else 0.0;
    var quote := (i: nat) => if i < |b.orders| then QuoteWorth(b.orders[i], c) else 0.0;
    PassDecomposes(b, c, base, quote);
  }

  /** The queue after a pass: exactly the live orders, in the order in which they were activated. */
  lemma PassQueue(b: Book, c: Candle, x: nat)
    requires Inv(b)
    ensures Pass(b, c).queue == LiveOnly(Pass(b, c).activated, Pass(b, c).orders)
    ensures Distinct(Pass(b, c).queue)
    ensures x in Pass(b, c).queue <==> x < |Pass(b, c).orders| && Pass(b, c).orders[x].status.New?
  {
    var r := Run(b, 0, c);
    RunKeepsCore(b, 0, c);
    LiveOnlyDistinct(r.queue, r.orders);
    LiveOnlyMember(r.queue, r.orders, x);
  }

  lemma {:induction false} RunQuiet(b: Book, i: nat, c: Candle)
    requires WellFormed(b) && i <= |b.queue|
    requires forall x | 0 <= x < |b.orders| :: !Ready(b.orders[x], c)
    ensures Run(b, i, c) == b
    decreases |b.orders| - i
  {
    if i < |b.queue| {
      RunUnfold(b, i, c);
      RunQuiet(b, i + 1, c);
    }
  }

  /** A second pass with the same candle changes nothing at all. */
  lemma PassIdempotent(b: Book, c: Candle)
    requires Inv(b)
    ensures Inv(Pass(b, c))
    ensures Pass(Pass(b, c), c) == Pass(b, c)
  {
    var t := Pass(b, c);
    PassKeepsInv(b, c);
    forall x | 0 <= x < |t.orders|
      ensures !Ready(t.orders[x], c)
    {
      PassComplete(b, c, x);
    }
    RunQuiet(t, 0, c);
    LiveOnlyAgain(Run(b, 0, c).queue, t.orders, t.orders);
  }

  // ---------- the tie-break between the two legs of a bracket ----------

  /** When the candle reaches both legs of a pair and both have their chance in this pass, the
      first one fills and the second one is cancelled. */
  lemma TieBreak(b: Book, c: Candle, a: nat, y: nat)
    requires Inv(b) && a < |b.orders| && y < |b.orders| && AboveBelow(b.orders[a].group, a, y)
    requires Reaches(b.orders[a].terms, c) && Reaches(b.orders[y].terms, c)
    requires (b.orders[a].status.New? && b.orders[y].status.New?)
      || exists w: nat :: w < |b.orders| && a in b.orders[w].triggered && Ready(b.orders[w], c)
    ensures |Pass(b, c).orders| == |b.orders|
    ensures Pass(b, c).orders[a].status.Filled? && Pass(b, c).orders[y].status.Canceled?
  {
    GroupPresent(b.orders, a);
    if w: nat :| w < |b.orders| && a in b.orders[w].triggered && Ready(b.orders[w], c) {
      GroupPresent(b.orders, w);
      assert GroupWired(b.orders, b.orders[w].group);
      assert Has(b.orders[w].group, w) && Triggers(b.orders[w].group, w, a) && Has(b.orders[w].group, a);
    }
    PassOrders(b, c, a);
    PassOrders(b, c, y);
  }

  // ---------- the assertion in the trigger handler ----------

  /** While a working order is live, its pending orders are PendingNew. */
  ghost predicate TriggerSafe(b: Book) {
    forall w: nat, p: nat {:trigger p in b.orders[w].triggered} |
      w < |b.orders| && b.orders[w].status.New? && p in b.orders[w].triggered ::
      p < |b.orders| && b.orders[p].status.PendingNew?
  }

  /** What the trigger handler asserts, should order id fill now. */
  ghost predicate AssertHolds(b: Book, id: nat, c: Candle) {
    id < |b.orders| && (Ready(b.orders[id], c) ==>
      forall p | p in b.orders[id].triggered :: p < |b.orders| && b.orders[p].status.PendingNew?)
  }

  /** No assertion fails in the queue loop from position i on. */
  ghost predicate AssertFree(b: Book, i: nat, c: Candle)
    requires WellFormed(b) && i <= |b.queue|
    decreases |b.orders| - i
  {
    i == |b.queue| || (
      RunUnfold(b, i, c);
      AssertHolds(b, b.queue[i], c) && AssertFree(Visit(b, b.queue[i], c), i + 1, c))
  }

  lemma TriggeredIsTriggers(orders: seq<Order>, w: nat)
    requires Wired(orders) && w < |orders|
    ensures orders[w].triggered == TriggeredBy(orders[w].group, w)
    ensures Proper(orders[w].group) && orders[w].canceled == CanceledBy(orders[w].group, w)
  {
    assert Has(orders[w].group, w) && GroupWired(orders, orders[w].group);
  }

  lemma LegInTable(orders: seq<Order>, w: nat, p: nat)
    requires Wired(orders) && w < |orders| && p in orders[w].triggered
    ensures p < |orders| && p != w && orders[p].group == orders[w].group && Triggers(orders[w].group, w, p)
  {
    TriggeredIsTriggers(orders, w);
    EdgesOf(orders);
  }

  lemma FillKeepsTriggerSafe(b: Book, id: nat, r: Book)
    requires Wired(b.orders) && Wired(r.orders) && Filling(b, id, r) && TriggerSafe(b)
    ensures TriggerSafe(r)
  {
    forall w: nat, p: nat | w < |r.orders| && r.orders[w].status.New? && p in r.orders[w].triggered
      ensures p < |r.orders| && r.orders[p].status.PendingNew?
    {
      TriggeredIsTriggers(b.orders, w);
      TriggeredIsTriggers(r.orders, w);
      assert r.orders[w].group == b.orders[w].group;
      assert Triggers(b.orders[w].group, w, p) && p in b.orders[w].triggered;
      assert id in b.orders[w].triggered <==> Triggers(b.orders[w].group, w, id);
      assert b.orders[p].group == b.orders[w].group;
    }
  }

  lemma VisitKeepsTriggerSafe(b: Book, id: nat, c: Candle)
    requires Wired(b.orders) && id < |b.orders| && TriggerSafe(b) && Wired(Visit(b, id, c).orders)
    ensures TriggerSafe(Visit(b, id, c))
  {
    if Ready(b.orders[id], c) {
      FillIsFilling(b, id, c);
      FillKeepsTriggerSafe(b, id, Visit(b, id, c));
    }
  }

  lemma {:induction false} SafeRunIsAssertFree(b: Book, i: nat, c: Candle)
    requires WellFormed(b) && TriggerSafe(b) && i <= |b.queue|
    ensures AssertFree(b, i, c) && TriggerSafe(Run(b, i, c))
    decreases |b.orders| - i
  {
    if i < |b.queue| {
      var id := b.queue[i];
      RunUnfold(b, i, c);
      VisitKeepsTriggerSafe(b, id, c);
      SafeRunIsAssertFree(Visit(b, id, c), i + 1, c);
    }
  }

  /** A visit of another order neither ends a working order nor revives a pending one to PendingNew. */
  lemma WorkingUndisturbed(b: Book, id: nat, c: Candle, w: nat, p: nat)
    requires Wired(b.orders) && id < |b.orders| && w < |b.orders| && p < |b.orders| && w != id
    requires b.orders[w].status.New? && p in b.orders[w].triggered && !b.orders[p].status.PendingNew?
    ensures var r := Visit(b, id, c);
      && |r.orders| == |b.orders|
      && r.orders[w] == b.orders[w]
      && !r.orders[p].status.PendingNew?
  {
    TriggeredIsTriggers(b.orders, w);
    assert Triggers(b.orders[w].group, w, p);
    if Ready(b.orders[id], c) {
      FillIsFilling(b, id, c);
      GroupPresent(b.orders, id);
      GroupPresent(b.orders, w);
    }
  }

  /** The order at position k of the queue would fill, and one of its pending orders is not
      PendingNew. */
  ghost predicate BrokenAt(b: Book, k: nat, c: Candle, p: nat) {
    && k < |b.queue| && b.queue[k] < |b.orders| && p < |b.orders|
    && Ready(b.orders[b.queue[k]], c)
    && p in b.orders[b.queue[k]].triggered
    && !b.orders[p].status.PendingNew?
  }

  lemma StaysBroken(b: Book, i: nat, k: nat, c: Candle, p: nat)
    requires WellFormed(b) && i < k && BrokenAt(b, k, c, p) && b.queue[i] < |b.orders|
    ensures BrokenAt(Visit(b, b.queue[i], c), k, c, p)
  {
    WorkingUndisturbed(b, b.queue[i], c, b.queue[k], p);
  }

  lemma BrokenFailsNow(b: Book, k: nat, c: Candle, p: nat)
    requires BrokenAt(b, k, c, p)
    ensures !AssertHolds(b, b.queue[k], c)
  {
  }

  lemma AssertFreeUnfold(b: Book, i: nat, c: Candle)
    requires WellFormed(b) && i < |b.queue|
    ensures b.queue[i] < |b.orders| && i < |b.orders|
    ensures var r := Visit(b, b.queue[i], c);
      && WellFormed(r) && i + 1 <= |r.queue| && |r.orders| == |b.orders|
      && (AssertFree(b, i, c) ==> AssertHolds(b, b.queue[i], c) && AssertFree(r, i + 1, c))
  {
    RunUnfold(b, i, c);
  }

  lemma {:induction false} BrokenRunFails(b: Book, i: nat, c: Candle, k: nat, p: nat)
    requires WellFormed(b) && i <= k && BrokenAt(b, k, c, p)
    ensures !AssertFree(b, i, c)
    decreases |b.orders| - i
  {
    AssertFreeUnfold(b, i, c);
    if i < k {
      StaysBroken(b, i, k, c, p);
      BrokenRunFails(Visit(b, b.queue[i], c), i + 1, c, k, p);
    } else {
      BrokenFailsNow(b, k, c, p);
    }
  }

  /** The candle that trades at the price of the order alone. */
  function CandleAt(t: Terms): Candle {
    var p := if t.kind.Market? then 1.0 else t.kind.price;
    Candle(p, p, p, p)
  }

  /** No candle makes the assertion fail in the next pass. */
  ghost predicate NeverFails(b: Book)
    requires WellFormed(b)
  {
    forall c: Candle :: AssertFree(b, 0, c)
  }

  /** The assertion holds on every candle exactly when the book is trigger-safe. */
  lemma AssertFreeExactly(b: Book)
    requires Inv(b)
    ensures NeverFails(b) <==> TriggerSafe(b)
  {
    if TriggerSafe(b) {
      forall c: Candle
        ensures AssertFree(b, 0, c)
      {
        SafeRunIsAssertFree(b, 0, c);
      }
    } else {
      var w: nat, p: nat :| w < |b.orders| && b.orders[w].status.New? && p in b.orders[w].triggered
        && !(p < |b.orders| && b.orders[p].status.PendingNew?);
      UnsafeFails(b, w, p);
    }
  }

  lemma UnsafeFails(b: Book, w: nat, p: nat)
    requires WellFormed(b) && NewQueued(b) && w < |b.orders|
    requires b.orders[w].status.New? && p in b.orders[w].triggered
      && !(p < |b.orders| && b.orders[p].status.PendingNew?)
    ensures !NeverFails(b)
  {
    LegInTable(b.orders, w, p);
    var k :| 0 <= k < |b.queue| && b.queue[k] == w;
    BrokenRunFails(b, 0, CandleAt(b.orders[w].terms), k, p);
  }

  // ---------- termination of the pass ----------

  function Pendings(orders: seq<Order>): set<nat> {
    set x: nat | x < |orders| && orders[x].status.PendingNew?
  }

  /** Taking distinct elements out of a set. */
  lemma {:induction false} RemovedSize(before: set<nat>, after: set<nat>, legs: seq<nat>)
    requires Distinct(legs) && (forall p | p in legs :: p in before)
    requires forall x | x in after :: x in before && x !in legs
    ensures |after| + |legs| <= |before|
  {
    if legs == [] {
      assert before == after + (before - after);
    } else {
      var p := legs[0];
      forall q | q in legs[1..]
        ensures q in before - {p}
      {
        assert q in legs;
      }
      RemovedSize(before - {p}, after, legs[1..]);
    }
  }

  lemma FillMeasure(b: Book, id: nat, r: Book)
    requires Filling(b, id, r) && Distinct(TriggeredBy(b.orders[id].group, id))
    requires forall p: nat | Triggers(b.orders[id].group, id, p) :: p < |b.orders| && b.orders[p].status.PendingNew?
    ensures |r.queue| + |Pendings(r.orders)| <= |b.queue| + |Pendings(b.orders)|
  {
    var g := b.orders[id].group;
    forall x | x in Pendings(r.orders)
      ensures x in Pendings(b.orders) && x !in TriggeredBy(g, id)
    {
      assert r.orders[x].status == StatusAfterFill(g, id, x, b.orders[x].status);
    }
    RemovedSize(Pendings(b.orders), Pendings(r.orders), TriggeredBy(g, id));
  }

  function Elements(s: seq<nat>): set<nat> {
    set y | y in s
  }

  /** If one of the triggered orders is not pending, the queue grows by at least as much as the
      pending orders shrink, plus one. */
  lemma FillMeasureLost(b: Book, id: nat, r: Book, p: nat)
    requires Filling(b, id, r) && Triggers(b.orders[id].group, id, p) && !b.orders[p].status.PendingNew?
    ensures |r.queue| + |Pendings(r.orders)| > |b.queue| + |Pendings(b.orders)|
  {
    var g := b.orders[id].group;
    var legs := TriggeredBy(g, id);
    var before, after := Pendings(b.orders), Pendings(r.orders);
    assert p in legs && p !in before;
    forall x | x in before
      ensures x in after + (Elements(legs) - {p})
    {
      assert r.orders[x].status == StatusAfterFill(g, id, x, b.orders[x].status);
      assert !Siblings(g, id, x);
    }
    SubsetSize(before, after, legs, p);
  }

  lemma SubsetSize(before: set<nat>, after: set<nat>, legs: seq<nat>, p: nat)
    requires p in legs && forall x | x in before :: x in after + (Elements(legs) - {p})
    ensures |before| < |after| + |legs|
  {
    var others := Elements(legs) - {p};
    CoveredSize(before, after + others);
    ElementsSize(legs);
    assert Elements(legs) == others + {p};
  }

  lemma CoveredSize(a: set<nat>, b: set<nat>)
    requires a <= b
    ensures |a| <= |b|
  {
    assert b == a + (b - a);
  }

  lemma {:induction false} ElementsSize(s: seq<nat>)
    ensures |Elements(s)| <= |s|
  {
    if s != [] {
      ElementsSize(s[1..]);
      assert s[0] in s && forall y :: y in s <==> y == s[0] || y in s[1..];
      assert Elements(s) == {s[0]} + Elements(s[1..]);
    }
  }

  /** An iteration lowers the number of unvisited entries plus the number of pending orders, although
      a fill appends what it triggers to the queue, exactly when the assertion holds in it. */
  lemma VisitMeasure(b: Book, i: nat, c: Candle)
    requires WellFormed(b) && i < |b.queue|
    ensures b.queue[i] < |b.orders|
    ensures var r := Visit(b, b.queue[i], c);
      (|r.queue| - (i + 1) + |Pendings(r.orders)| < |b.queue| - i + |Pendings(b.orders)|)
        <==> AssertHolds(b, b.queue[i], c)
  {
    var id := b.queue[i];
    RunUnfold(b, i, c);
    if Ready(b.orders[id], c) {
      FillIsFilling(b, id, c);
      TriggeredIsTriggers(b.orders, id);
      if p: nat :| Triggers(b.orders[id].group, id, p) && !(p < |b.orders| && b.orders[p].status.PendingNew?) {
        assert p in b.orders[id].triggered;
        FillMeasureLost(b, id, Visit(b, id, c), p);
      } else {
        FillMeasure(b, id, Visit(b, id, c));
      }
    }
  }

  /** Whatever the client has done, the queue never outgrows the table, so that the walk ends within
      one visit per order. */
  lemma WalkBounded(b: Book, i: nat, c: Candle)
    requires WellFormed(b) && i < |b.queue|
    ensures b.queue[i] < |b.orders|
    ensures var r := Visit(b, b.queue[i], c);
      |r.orders| == |b.orders| && i + 1 <= |r.queue| <= |r.orders|
  {
    RunUnfold(b, i, c);
    var r := Visit(b, b.queue[i], c);
    assert forall k | 0 <= k < |r.queue| :: r.queue[k] < |r.orders|;
    DistinctBound(r.queue, |r.orders|);
  }
}
