/** What every command sequence keeps: wiring, queue, histories and the fill log. */
module BookInvariant {
  import opened Common
  import opened Numbers
  import opened Orders
  import opened Books

  ghost predicate NewQueued(b: Book) {
    forall x | 0 <= x < |b.orders| && b.orders[x].status.New? :: x in b.queue
  }

  /** a is the first and y the second of two siblings. */
  predicate AboveBelow(g: Group, a: nat, y: nat) {
    match g
    case Oco(a', b') => a == a' && y == b'
    case Otoco(_, a', b') => a == a' && y == b'
    case _ => false
  }

  /** No below order is queued ahead of its above sibling. */
  ghost predicate LegsInOrder(orders: seq<Order>, q: seq<nat>) {
    forall k, l | 0 <= k < l < |q| && q[l] < |orders| :: !AboveBelow(orders[q[l]].group, q[l], q[k])
  }

  /** Legs of a live working order have never been activated. */
  ghost predicate LegsUnused(b: Book) {
    forall w: nat, p: nat | w < |b.orders| && Triggers(b.orders[w].group, w, p) && b.orders[w].status.New? ::
      p !in b.activated
  }

  /** Nothing is activated twice, and the queue is the activation history up to orders that are
      no longer live. */
  ghost predicate HistorySound(b: Book) {
    && Distinct(b.activated)
    && LegsUnused(b)
    && (forall x | x in b.activated :: x < |b.orders|)
    && (forall x | x in b.queue :: x in b.activated)
    && LiveOnly(b.queue, b.orders) == LiveOnly(b.activated, b.orders)
  }

  ghost predicate Logged(log: seq<Fill>, x: nat) {
    exists i :: 0 <= i < |log| && log[i].id == x
  }

  predicate Done(s: OrderStatus) {
    s.Filled? || s.Canceled?
  }

  /** A fill entry carries the side and size of its order, whose life is over. */
  ghost predicate EntrySound(orders: seq<Order>, f: Fill) {
    && f.id < |orders|
    && Done(orders[f.id].status)
    && f.side == orders[f.id].terms.side
    && f.base == orders[f.id].terms.quantity
  }

  ghost predicate LogSound(b: Book) {
    && (forall i, j | 0 <= i < j < |b.log| :: b.log[i].id != b.log[j].id)
    && (forall i | 0 <= i < |b.log| :: EntrySound(b.orders, b.log[i]))
    && (forall x | 0 <= x < |b.orders| && b.orders[x].status.Filled? :: Logged(b.log, x))
  }

  /** Once one of two siblings has filled, the other is Canceled and has not filled. */
  ghost predicate SiblingsExclusive(b: Book) {
    forall x: nat, y: nat | x < |b.orders| && y < |b.orders| && Siblings(b.orders[x].group, x, y) && Logged(b.log, x) ::
      b.orders[y].status.Canceled? && !Logged(b.log, y)
  }

  /** A pending leg becomes live, and fills, only after its working order has filled. */
  ghost predicate Causal(b: Book) {
    && (forall w: nat, p: nat
          | w < |b.orders| && p < |b.orders| && Triggers(b.orders[w].group, w, p) && b.orders[p].status.New? ::
          Logged(b.log, w))
    && (forall w: nat, i: nat | w < |b.orders| && i < |b.log| && Triggers(b.orders[w].group, w, b.log[i].id) ::
          Logged(b.log[..i], w))
  }

  ghost predicate WholeGroup(orders: seq<Order>, list: seq<nat>) {
    forall x, y: nat | x in list :: x < |orders| && (y in list <==> Has(orders[x].group, y))
  }

  /** Every list of the list table is one whole group. */
  ghost predicate ListsSound(b: Book) {
    forall l | 0 <= l < |b.lists| :: WholeGroup(b.orders, b.lists[l])
  }

  ghost predicate QueueInv(b: Book) {
    NewQueued(b) && LegsInOrder(b.orders, b.queue) && HistorySound(b)
  }

  ghost predicate LogInv(b: Book) {
    LogSound(b) && SiblingsExclusive(b) && Causal(b)
  }

  ghost predicate Core(b: Book) {
    WellFormed(b) && QueueInv(b) && LogInv(b)
  }

  /** The invariant of every command sequence. */
  ghost predicate Inv(b: Book) {
    Core(b) && ListsSound(b)
  }

  // ---------- filtering the queue ----------

  lemma {:induction false} LiveOnlyMember(q: seq<nat>, orders: seq<Order>, x: nat)
    ensures x in LiveOnly(q, orders) <==> x in q && x < |orders| && orders[x].status.New?
  {
    if q != [] {
      LiveOnlyMember(q[1..], orders, x);
    }
  }

  lemma {:induction false} LiveOnlyDistinct(q: seq<nat>, orders: seq<Order>)
    requires Distinct(q)
    ensures Distinct(LiveOnly(q, orders))
  {
    if q != [] {
      LiveOnlyDistinct(q[1..], orders);
      LiveOnlyMember(q[1..], orders, q[0]);
    }
  }

  lemma {:induction false} LiveOnlyInOrder(q: seq<nat>, orders: seq<Order>)
    requires LegsInOrder(orders, q)
    ensures LegsInOrder(orders, LiveOnly(q, orders))
  {
    if q != [] {
      LiveOnlyInOrder(q[1..], orders);
      var rest := LiveOnly(q[1..], orders);
      forall l | 0 <= l < |rest|
        ensures rest[l] < |orders| && !AboveBelow(orders[rest[l]].group, rest[l], q[0])
      {
        LiveOnlyMember(q[1..], orders, rest[l]);
        var m :| 0 <= m < |q[1..]| && q[1..][m] == rest[l];
        assert q[m + 1] == rest[l];
      }
    }
  }

  lemma Regroup(a: seq<nat>, b: seq<nat>, c: seq<nat>)
    ensures (a + b) + c == a + (b + c)
  {
  }

  lemma LiveOnlyFirst(x: nat, q: seq<nat>, orders: seq<Order>)
    ensures LiveOnly([x] + q, orders)
      == (if x < |orders| && orders[x].status.New? then [x] else []) + LiveOnly(q, orders)
  {
    assert ([x] + q)[1..] == q;
  }

  lemma {:induction false} LiveOnlyConcat(q: seq<nat>, more: seq<nat>, orders: seq<Order>)
    ensures LiveOnly(q + more, orders) == LiveOnly(q, orders) + LiveOnly(more, orders)
  {
    if q == [] {
      assert q + more == more;
    } else {
      var rest := q[1..];
      LiveOnlyConcat(rest, more, orders);
      LiveOnlyFirst(q[0], rest + more, orders);
      LiveOnlyFirst(q[0], rest, orders);
      assert q == [q[0]] + rest;
      Regroup([q[0]], rest, more);
      Regroup([q[0]], LiveOnly(rest, orders), LiveOnly(more, orders));
    }
  }

  /** Filtering again after orders have only died gives the same as filtering afresh. */
  lemma {:induction false} LiveOnlyAgain(q: seq<nat>, before: seq<Order>, after: seq<Order>)
    requires |before| <= |after|
    requires forall x | x in q && x < |after| && after[x].status.New? :: x < |before| && before[x].status.New?
    ensures LiveOnly(LiveOnly(q, before), after) == LiveOnly(q, after)
  {
    if q != [] {
      LiveOnlyAgain(q[1..], before, after);
    }
  }

  /** The agreement of queue and history survives orders dying and a common extension. */
  lemma LiveOnlyExtend(q: seq<nat>, h: seq<nat>, more: seq<nat>, before: seq<Order>, after: seq<Order>)
    requires LiveOnly(q, before) == LiveOnly(h, before)
    requires |before| <= |after|
    requires forall x | x in q || x in h :: x < |before|
    requires forall x | x in h && after[x].status.New? :: before[x].status.New?
    requires forall x | x in q :: x in h
    ensures LiveOnly(q + more, after) == LiveOnly(h + more, after)
  {
    LiveOnlyConcat(q, more, after);
    LiveOnlyConcat(h, more, after);
    LiveOnlyAgain(q, before, after);
    LiveOnlyAgain(h, before, after);
  }

  // ---------- a fill keeps the invariant ----------

  lemma FillKeepsQueue(b: Book, id: nat, r: Book)
    requires Filling(b, id, r)
    requires NewQueued(b) && LegsInOrder(b.orders, b.queue) && HistorySound(b)
    requires Distinct(TriggeredBy(b.orders[id].group, id))
    ensures NewQueued(r) && LegsInOrder(r.orders, r.queue)
  {
    var g := b.orders[id].group;
    forall k, l | 0 <= k < l < |r.queue| && r.queue[l] < |r.orders|
      ensures !AboveBelow(r.orders[r.queue[l]].group, r.queue[l], r.queue[k])
    {
      if l >= |b.queue| {
        assert r.queue[l] in TriggeredBy(g, id);
        assert r.orders[r.queue[l]].group == g;
        if k < |b.queue| {
          assert r.queue[k] in b.queue;
          assert !Triggers(g, id, r.queue[k]);
        } else {
          assert r.queue[k] == TriggeredBy(g, id)[k - |b.queue|];
          assert r.queue[l] == TriggeredBy(g, id)[l - |b.queue|];
        }
      }
    }
  }

  lemma FillKeepsLegsUnused(b: Book, id: nat, r: Book)
    requires Filling(b, id, r) && LegsUnused(b)
    ensures LegsUnused(r)
  {
    forall w: nat, p: nat | w < |r.orders| && Triggers(r.orders[w].group, w, p) && r.orders[w].status.New?
      ensures p !in r.activated
    {
      assert Triggers(b.orders[w].group, w, p);
      assert b.orders[p].group == b.orders[w].group;
    }
  }

  lemma FillKeepsHistory(b: Book, id: nat, r: Book)
    requires Filling(b, id, r) && HistorySound(b) && Distinct(TriggeredBy(b.orders[id].group, id))
    ensures HistorySound(r)
  {
    var legs := TriggeredBy(b.orders[id].group, id);
    FillKeepsLegsUnused(b, id, r);
    AppendDistinct(b.activated, legs);
    forall x | x in b.activated && r.orders[x].status.New?
      ensures b.orders[x].status.New?
    {
      assert x !in legs;
    }
    LiveOnlyExtend(b.queue, b.activated, legs, b.orders, r.orders);
  }

  lemma LoggedGrows(short: seq<Fill>, long: seq<Fill>, x: nat)
    requires short <= long
    ensures Logged(short, x) ==> Logged(long, x)
  {
    if i :| 0 <= i < |short| && short[i].id == x {
      assert long[i].id == x;
    }
  }

  lemma LegLoggedAfterWorking(b: Book, w: nat, p: nat)
    requires Causal(b) && w < |b.orders| && Triggers(b.orders[w].group, w, p)
    ensures Logged(b.log, p) ==> Logged(b.log, w)
  {
    if i :| 0 <= i < |b.log| && b.log[i].id == p {
      LoggedGrows(b.log[..i], b.log, w);
    }
  }

  lemma LiveNotLogged(b: Book, x: nat)
    requires LogSound(b) && x < |b.orders| && !Done(b.orders[x].status)
    ensures !Logged(b.log, x)
  {
    forall i | 0 <= i < |b.log|
      ensures b.log[i].id != x
    {
      assert EntrySound(b.orders, b.log[i]);
    }
  }

  /** A leg of a live working order has not filled. */
  lemma LegNotLogged(b: Book, w: nat, p: nat)
    requires LogSound(b) && Causal(b) && w < |b.orders| && b.orders[w].status.New?
    requires Triggers(b.orders[w].group, w, p)
    ensures !Logged(b.log, p)
  {
    LegLoggedAfterWorking(b, w, p);
    LiveNotLogged(b, w);
  }

  lemma FillKeepsLog(b: Book, id: nat, r: Book)
    requires Filling(b, id, r) && LogSound(b) && Causal(b)
    ensures LogSound(r)
  {
    forall i | 0 <= i < |r.log|
      ensures EntrySound(r.orders, r.log[i])
      ensures i < |b.log| ==> r.log[i].id != id
    {
      if i < |b.log| {
        assert r.log[i] == b.log[i] && EntrySound(b.orders, b.log[i]);
        if Triggers(b.orders[id].group, id, r.log[i].id) {
          LegNotLogged(b, id, r.log[i].id);
        }
      }
    }
    forall x | 0 <= x < |r.orders| && r.orders[x].status.Filled?
      ensures Logged(r.log, x)
    {
      LoggedGrows(b.log, r.log, x);
    }
  }

  lemma LoggedAfterFill(b: Book, id: nat, r: Book, x: nat)
    requires Filling(b, id, r)
    ensures Logged(r.log, x) <==> x == id || Logged(b.log, x)
  {
    LoggedGrows(b.log, r.log, x);
    if i :| 0 <= i < |r.log| && r.log[i].id == x {
      assert i < |b.log| ==> b.log[i] == r.log[i];
    }
  }

  lemma FillKeepsExclusion(b: Book, id: nat, r: Book)
    requires Filling(b, id, r) && LogSound(b) && Causal(b) && SiblingsExclusive(b)
    ensures SiblingsExclusive(r)
  {
    forall x: nat, y: nat | x < |r.orders| && y < |r.orders| && Siblings(r.orders[x].group, x, y) && Logged(r.log, x)
      ensures r.orders[y].status.Canceled? && !Logged(r.log, y)
    {
      LoggedAfterFill(b, id, r, x);
      LoggedAfterFill(b, id, r, y);
      assert Siblings(b.orders[x].group, x, y) && Siblings(b.orders[y].group, y, x);
      if x != id && Triggers(b.orders[id].group, id, y) {
        assert Triggers(b.orders[id].group, id, x);
        LegNotLogged(b, id, x);
      }
    }
  }

  lemma FillKeepsCausal(b: Book, id: nat, r: Book)
    requires Filling(b, id, r) && Causal(b)
    ensures Causal(r)
  {
    forall w: nat, p: nat | w < |r.orders| && p < |r.orders| && Triggers(r.orders[w].group, w, p)
      && r.orders[p].status.New?
      ensures Logged(r.log, w)
    {
      LoggedGrows(b.log, r.log, w);
    }
    forall w: nat, i: nat | w < |r.orders| && i < |r.log| && Triggers(r.orders[w].group, w, r.log[i].id)
      ensures Logged(r.log[..i], w)
    {
      assert r.log[..i] == b.log[..i];
    }
  }

  lemma VisitKeepsQueueInv(b: Book, id: nat, c: Candle)
    requires Wired(b.orders) && QueueInv(b) && id < |b.orders|
    ensures QueueInv(Visit(b, id, c))
  {
    if Ready(b.orders[id], c) {
      var r := FillOrder(b, id, c);
      FillIsFilling(b, id, c);
      FillKeepsQueue(b, id, r);
      FillKeepsHistory(b, id, r);
    }
  }

  lemma VisitKeepsLogInv(b: Book, id: nat, c: Candle)
    requires Wired(b.orders) && LogInv(b) && id < |b.orders|
    ensures LogInv(Visit(b, id, c))
    ensures b.log <= Visit(b, id, c).log
  {
    if Ready(b.orders[id], c) {
      var r := FillOrder(b, id, c);
      FillIsFilling(b, id, c);
      FillKeepsLog(b, id, r);
      FillKeepsExclusion(b, id, r);
      FillKeepsCausal(b, id, r);
    }
  }

  lemma SameWiringKeepsLists(b: Book, r: Book)
    requires ListsSound(b) && SameWiring(b.orders, r.orders) && r.lists == b.lists
    ensures ListsSound(r)
  {
    forall l | 0 <= l < |r.lists|
      ensures WholeGroup(r.orders, r.lists[l])
    {
      assert WholeGroup(b.orders, b.lists[l]);
    }
  }

  lemma VisitKeepsCore(b: Book, id: nat, c: Candle)
    requires Core(b) && id < |b.orders| && id in b.queue
    ensures Core(Visit(b, id, c))
    ensures b.log <= Visit(b, id, c).log
  {
    VisitKeepsWellFormed(b, id, c);
    VisitKeepsQueueInv(b, id, c);
    VisitKeepsLogInv(b, id, c);
  }

  /** What a pass leaves as it was. */
  ghost predicate Extends(b: Book, r: Book) {
    b.log <= r.log && SameWiring(b.orders, r.orders) && b.lists <= r.lists
  }

  lemma {:induction false} RunKeepsCore(b: Book, i: nat, c: Candle)
    requires Core(b) && i <= |b.queue|
    ensures Core(Run(b, i, c))
    ensures Extends(b, Run(b, i, c)) && |Run(b, i, c).orders| == |b.orders| && Run(b, i, c).lists == b.lists
    decreases |b.orders| - i
  {
    if i < |b.queue| {
      var id := b.queue[i];
      RunUnfold(b, i, c);
      VisitKeepsWellFormed(b, id, c);
      VisitKeepsCore(b, id, c);
      RunKeepsCore(Visit(b, id, c), i + 1, c);
    }
  }

  /** Compaction drops only orders that are no longer live. */
  lemma CompactionKeepsQueueInv(b: Book)
    requires QueueInv(b)
    ensures QueueInv(b.(queue := LiveOnly(b.queue, b.orders)))
  {
    forall x: nat
      ensures x in LiveOnly(b.queue, b.orders) <==> x in b.queue && x < |b.orders| && b.orders[x].status.New?
    {
      LiveOnlyMember(b.queue, b.orders, x);
    }
    LiveOnlyInOrder(b.queue, b.orders);
    LiveOnlyAgain(b.queue, b.orders, b.orders);
  }

  lemma CompactionKeepsWellFormed(b: Book)
    requires WellFormed(b)
    ensures WellFormed(b.(queue := LiveOnly(b.queue, b.orders)))
  {
    var q := LiveOnly(b.queue, b.orders);
    forall x: nat
      ensures x in q <==> x in b.queue && x < |b.orders| && b.orders[x].status.New?
    {
      LiveOnlyMember(b.queue, b.orders, x);
    }
    LiveOnlyDistinct(b.queue, b.orders);
    assert forall k | 0 <= k < |q| :: q[k] in q;
  }

  lemma CompactionKeepsLogInv(b: Book)
    requires LogInv(b)
    ensures LogInv(b.(queue := LiveOnly(b.queue, b.orders)))
  {
  }

  lemma PassKeepsCore(b: Book, c: Candle)
    requires Core(b)
    ensures Core(Pass(b, c))
  {
    var r := Run(b, 0, c);
    RunKeepsCore(b, 0, c);
    CompactionKeepsWellFormed(r);
    CompactionKeepsQueueInv(r);
    CompactionKeepsLogInv(r);
  }

  lemma PassKeepsInv(b: Book, c: Candle)
    requires Inv(b)
    ensures Inv(Pass(b, c))
    ensures Extends(b, Pass(b, c)) && |Pass(b, c).orders| == |b.orders|
  {
    PassKeepsCore(b, c);
    RunKeepsCore(b, 0, c);
    SameWiringKeepsLists(b, Pass(b, c));
  }

  // ---------- client commands keep the invariant ----------

  lemma CancelKeepsQueueInv(b: Book, ids: seq<nat>)
    requires QueueInv(b)
    ensures QueueInv(CancelOrders(b, ids))
  {
    LiveOnlyExtend(b.queue, b.activated, [], b.orders, CancelOrders(b, ids).orders);
    assert b.queue + [] == b.queue && b.activated + [] == b.activated;
  }

  lemma CancelKeepsLogInv(b: Book, ids: seq<nat>)
    requires LogInv(b)
    ensures LogInv(CancelOrders(b, ids))
  {
    forall i | 0 <= i < |b.log|
      ensures EntrySound(CancelOrders(b, ids).orders, b.log[i])
    {
      assert EntrySound(b.orders, b.log[i]);
    }
  }

  lemma CancelKeepsWellFormed(b: Book, ids: seq<nat>)
    requires WellFormed(b)
    ensures WellFormed(CancelOrders(b, ids))
  {
    WiredKept(b.orders, CancelOrders(b, ids).orders);
  }

  lemma CancelKeepsInv(b: Book, ids: seq<nat>)
    requires Inv(b)
    ensures Inv(CancelOrders(b, ids))
  {
    CancelKeepsWellFormed(b, ids);
    CancelKeepsQueueInv(b, ids);
    CancelKeepsLogInv(b, ids);
    SameWiringKeepsLists(b, CancelOrders(b, ids));
  }

  /** A batch of orders created by one command, to be appended to a table of size n. */
  ghost predicate Batch(n: nat, added: seq<Order>, live: seq<nat>, lists: seq<seq<nat>>, g: Group) {
    && Proper(g)
    && (forall x: nat :: Has(g, x) <==> n <= x < n + |added|)
    && (forall k | 0 <= k < |added| ::
          && added[k].group == g
          && added[k].triggered == TriggeredBy(g, n + k)
          && added[k].canceled == CanceledBy(g, n + k)
          && (added[k].status.New? || added[k].status.PendingNew?)
          && (added[k].status.New? <==> n + k in live))
    && (forall w: nat, p: nat | Triggers(g, w, p) :: p !in live)
    && Distinct(live)
    && (forall x | x in live :: n <= x < n + |added|)
    && (forall k, l | 0 <= k < l < |live| :: !AboveBelow(g, live[l], live[k]))
    && (forall l, x | 0 <= l < |lists| :: x in lists[l] <==> Has(g, x))
  }

  /** r is b with a batch appended. */
  ghost predicate Appending(b: Book, r: Book, added: seq<Order>, live: seq<nat>, lists: seq<seq<nat>>, g: Group) {
    && r == Append(b, added, live, lists)
    && Batch(|b.orders|, added, live, lists, g)
  }

  lemma AppendKeepsWired(b: Book, r: Book, added: seq<Order>, live: seq<nat>, lists: seq<seq<nat>>, g: Group)
    requires Appending(b, r, added, live, lists, g) && Wired(b.orders)
    ensures Wired(r.orders)
  {
    var n := |b.orders|;
    forall i | 0 <= i < |r.orders|
      ensures Has(r.orders[i].group, i) && GroupWired(r.orders, r.orders[i].group)
    {
      if i < n {
        assert Has(b.orders[i].group, i) && GroupWired(b.orders, b.orders[i].group);
      } else {
        assert r.orders[i] == added[i - n];
        forall x: nat | Has(g, x)
          ensures r.orders[x] == added[x - n]
        {
        }
      }
    }
  }

  lemma AppendKeepsQueueSound(b: Book, r: Book, added: seq<Order>, live: seq<nat>, lists: seq<seq<nat>>, g: Group)
    requires Appending(b, r, added, live, lists, g) && QueueSound(b)
    ensures QueueSound(r)
  {
    assert forall x | x in b.queue :: x < |b.orders|;
    AppendDistinct(b.queue, live);
    forall k | 0 <= k < |r.queue|
      ensures r.queue[k] < |r.orders| && !r.orders[r.queue[k]].status.PendingNew?
    {
      if k >= |b.queue| {
        assert r.queue[k] in live;
        assert r.orders[r.queue[k]] == added[r.queue[k] - |b.orders|];
      }
    }
  }

  lemma AppendKeepsInOrder(b: Book, r: Book, added: seq<Order>, live: seq<nat>, lists: seq<seq<nat>>, g: Group)
    requires Appending(b, r, added, live, lists, g)
    requires NewQueued(b) && LegsInOrder(b.orders, b.queue) && forall x | x in b.queue :: x < |b.orders|
    ensures NewQueued(r) && LegsInOrder(r.orders, r.queue)
  {
    var n := |b.orders|;
    forall k, l | 0 <= k < l < |r.queue| && r.queue[l] < |r.orders|
      ensures !AboveBelow(r.orders[r.queue[l]].group, r.queue[l], r.queue[k])
    {
      if l >= |b.queue| {
        assert r.queue[l] in live;
        assert r.orders[r.queue[l]] == added[r.queue[l] - n];
        if k < |b.queue| {
          assert r.queue[k] in b.queue;
          assert !Has(g, r.queue[k]);
        }
      } else {
        assert r.queue[l] in b.queue;
      }
    }
    forall x | 0 <= x < |r.orders| && r.orders[x].status.New?
      ensures x in r.queue
    {
      if x >= n {
        assert r.orders[x] == added[x - n];
        assert x in live;
      }
    }
  }

  /** In the new table an edge out of an old order is an edge of the old table, and an edge out of
      a new order is an edge of the batch. */
  lemma AppendEdge(b: Book, r: Book, added: seq<Order>, live: seq<nat>, lists: seq<seq<nat>>, g: Group, x: nat, y: nat)
    requires Appending(b, r, added, live, lists, g) && Edges(b.orders) && x < |r.orders|
    requires Triggers(r.orders[x].group, x, y) || Siblings(r.orders[x].group, x, y)
    ensures x < |b.orders| ==> r.orders[x] == b.orders[x] && y < |b.orders| && r.orders[y] == b.orders[y]
    ensures x >= |b.orders| ==>
      r.orders[x].group == g && |b.orders| <= y < |r.orders| && r.orders[y] == added[y - |b.orders|]
  {
    if x >= |b.orders| {
      assert r.orders[x] == added[x - |b.orders|];
      assert Has(g, y);
    } else {
      assert r.orders[x] == b.orders[x];
    }
  }

  lemma AppendKeepsLeg(b: Book, r: Book, added: seq<Order>, live: seq<nat>, lists: seq<seq<nat>>, g: Group, w: nat,
    p: nat)
    requires Appending(b, r, added, live, lists, g) && Edges(b.orders)
    requires LegsDormant(b) && LegsUnused(b) && forall x | x in b.queue || x in b.activated :: x < |b.orders|
    requires w < |r.orders| && Triggers(r.orders[w].group, w, p) && r.orders[w].status.New?
    ensures p < |r.orders| && p !in r.queue && p !in r.activated
    ensures r.orders[p].status.PendingNew? || r.orders[p].status.Canceled?
  {
    AppendEdge(b, r, added, live, lists, g, w, p);
    if w < |b.orders| {
      assert Triggers(b.orders[w].group, w, p);
    }
  }

  lemma AppendKeepsLegs(b: Book, r: Book, added: seq<Order>, live: seq<nat>, lists: seq<seq<nat>>, g: Group)
    requires Appending(b, r, added, live, lists, g) && Edges(b.orders)
    requires LegsDormant(b) && LegsUnused(b) && forall x | x in b.queue || x in b.activated :: x < |b.orders|
    ensures LegsDormant(r) && LegsUnused(r)
  {
    forall w: nat, p: nat | w < |r.orders| && Triggers(r.orders[w].group, w, p) && r.orders[w].status.New?
      ensures p !in r.activated
    {
      AppendKeepsLeg(b, r, added, live, lists, g, w, p);
    }
    forall w: nat, p: nat | w < |r.orders| && p < |r.orders| && Triggers(r.orders[w].group, w, p)
      && r.orders[w].status.New?
      ensures p !in r.queue && (r.orders[p].status.PendingNew? || r.orders[p].status.Canceled?)
    {
      AppendKeepsLeg(b, r, added, live, lists, g, w, p);
    }
  }

  lemma AppendKeepsHistory(b: Book, r: Book, added: seq<Order>, live: seq<nat>, lists: seq<seq<nat>>, g: Group)
    requires Appending(b, r, added, live, lists, g) && HistorySound(b) && LegsUnused(r)
    ensures HistorySound(r)
  {
    AppendDistinct(b.activated, live);
    LiveOnlyExtend(b.queue, b.activated, live, b.orders, r.orders);
  }

  lemma AppendKeepsLog(b: Book, r: Book, added: seq<Order>, live: seq<nat>, lists: seq<seq<nat>>, g: Group)
    requires Appending(b, r, added, live, lists, g) && LogSound(b)
    ensures LogSound(r) && forall x | |b.orders| <= x :: !Logged(r.log, x)
  {
    forall i | 0 <= i < |r.log|
      ensures EntrySound(r.orders, r.log[i]) && r.log[i].id < |b.orders|
    {
      assert EntrySound(b.orders, b.log[i]);
    }
    forall x | |b.orders| <= x < |r.orders|
      ensures !r.orders[x].status.Filled?
    {
      assert r.orders[x] == added[x - |b.orders|];
    }
  }

  lemma AppendKeepsExclusion(b: Book, r: Book, added: seq<Order>, live: seq<nat>, lists: seq<seq<nat>>, g: Group)
    requires Appending(b, r, added, live, lists, g) && Edges(b.orders)
    requires SiblingsExclusive(b) && forall x | |b.orders| <= x :: !Logged(r.log, x)
    ensures SiblingsExclusive(r)
  {
    forall x: nat, y: nat | x < |r.orders| && y < |r.orders| && Siblings(r.orders[x].group, x, y) && Logged(r.log, x)
      ensures r.orders[y].status.Canceled? && !Logged(r.log, y)
    {
      AppendEdge(b, r, added, live, lists, g, x, y);
    }
  }

  lemma AppendKeepsCausal(b: Book, r: Book, added: seq<Order>, live: seq<nat>, lists: seq<seq<nat>>, g: Group)
    requires Appending(b, r, added, live, lists, g) && Edges(b.orders)
    requires Causal(b) && forall i | 0 <= i < |b.log| :: b.log[i].id < |b.orders|
    ensures Causal(r)
  {
    forall w: nat, p: nat | w < |r.orders| && p < |r.orders| && Triggers(r.orders[w].group, w, p)
      && r.orders[p].status.New?
      ensures Logged(r.log, w)
    {
      AppendEdge(b, r, added, live, lists, g, w, p);
    }
    forall w: nat, i: nat | w < |r.orders| && i < |r.log| && Triggers(r.orders[w].group, w, r.log[i].id)
      ensures Logged(r.log[..i], w)
    {
      AppendEdge(b, r, added, live, lists, g, w, r.log[i].id);
    }
  }

  lemma AppendKeepsLogInv(b: Book, r: Book, added: seq<Order>, live: seq<nat>, lists: seq<seq<nat>>, g: Group)
    requires Appending(b, r, added, live, lists, g) && LogInv(b) && Edges(b.orders)
    ensures LogInv(r)
  {
    AppendKeepsLog(b, r, added, live, lists, g);
    AppendKeepsExclusion(b, r, added, live, lists, g);
    forall i | 0 <= i < |b.log|
      ensures b.log[i].id < |b.orders|
    {
      assert EntrySound(b.orders, b.log[i]);
    }
    AppendKeepsCausal(b, r, added, live, lists, g);
  }

  lemma AppendKeepsLists(b: Book, r: Book, added: seq<Order>, live: seq<nat>, lists: seq<seq<nat>>, g: Group)
    requires Appending(b, r, added, live, lists, g) && ListsSound(b)
    ensures ListsSound(r)
  {
    forall l | 0 <= l < |r.lists|
      ensures WholeGroup(r.orders, r.lists[l])
    {
      if l < |b.lists| {
        assert WholeGroup(b.orders, b.lists[l]);
      } else {
        assert r.lists[l] == lists[l - |b.lists|];
        forall x | x in r.lists[l]
          ensures x < |r.orders| && r.orders[x].group == g
        {
          assert Has(g, x);
          assert r.orders[x] == added[x - |b.orders|];
        }
      }
    }
  }

  lemma AppendKeepsInv(b: Book, r: Book, added: seq<Order>, live: seq<nat>, lists: seq<seq<nat>>, g: Group)
    requires Appending(b, r, added, live, lists, g) && Inv(b)
    ensures Inv(r)
  {
    EdgesOf(b.orders);
    AppendKeepsWired(b, r, added, live, lists, g);
    AppendKeepsQueueSound(b, r, added, live, lists, g);
    AppendKeepsInOrder(b, r, added, live, lists, g);
    AppendKeepsLegs(b, r, added, live, lists, g);
    AppendKeepsHistory(b, r, added, live, lists, g);
    AppendKeepsLogInv(b, r, added, live, lists, g);
    AppendKeepsLists(b, r, added, live, lists, g);
  }

  lemma SingleIsBatch(b: Book, t: Terms)
    ensures var n := |b.orders|;
      Batch(n, [FreshOrder(t, New, Single(n), n)], [n], [], Single(n))
  {
  }

  lemma OtoIsBatch(b: Book, w: Terms, p: Terms)
    ensures var n := |b.orders|;
      var g := Oto(n, n + 1);
      Batch(n, [FreshOrder(w, New, g, n), FreshOrder(p, PendingNew, g, n + 1)], [n], [[n, n + 1]], g)
  {
  }

  lemma OcoIsBatch(b: Book, x: Terms, y: Terms, status: OrderStatus)
    requires status.New? || status.PendingNew?
    ensures var n := |b.orders|;
      var g := Oco(n, n + 1);
      Batch(n, [FreshOrder(x, New, g, n), FreshOrder(y, status, g, n + 1)],
        if status.New? then [n, n + 1] else [n], [[n, n + 1]], g)
  {
  }

  lemma OtocoIsBatch(b: Book, w: Terms, x: Terms, y: Terms)
    ensures var n := |b.orders|;
      var g := Otoco(n, n + 1, n + 2);
      Batch(n, [FreshOrder(w, New, g, n), FreshOrder(x, PendingNew, g, n + 1), FreshOrder(y, PendingNew, g, n + 2)],
        [n], [[n, n + 1, n + 2]], g)
  {
  }

  predicate IsPlacement(m: Command) {
    !m.Cancel? && !m.CancelList? && !m.Tick?
  }

  ghost predicate Placed(b: Book, r: Book) {
    exists added, live, lists, g :: Appending(b, r, added, live, lists, g)
  }

  lemma PlacementIsBatch(b: Book, m: Command)
    requires WellFormed(b) && IsPlacement(m)
    ensures Placed(b, Step(b, m))
  {
    var n := |b.orders|;
    match m
    case Place(t) =>
      SingleIsBatch(b, t);
      assert Appending(b, Step(b, m), [FreshOrder(t, New, Single(n), n)], [n], [], Single(n));
    case PlaceOto(w, p) =>
      OtoIsBatch(b, w, p);
      var g := Oto(n, n + 1);
      assert Appending(b, Step(b, m), [FreshOrder(w, New, g, n), FreshOrder(p, PendingNew, g, n + 1)], [n],
        [[n, n + 1]], g);
    case PlaceOco(x, y) =>
      OcoIsBatch(b, x, y, PendingNew);
      var g := Oco(n, n + 1);
      assert Appending(b, Step(b, m), [FreshOrder(x, New, g, n), FreshOrder(y, PendingNew, g, n + 1)], [n],
        [[n, n + 1]], g);
    case PlaceLiveOco(x, y) =>
      OcoIsBatch(b, x, y, New);
      var g := Oco(n, n + 1);
      assert Appending(b, Step(b, m), [FreshOrder(x, New, g, n), FreshOrder(y, New, g, n + 1)], [n, n + 1],
        [[n, n + 1]], g);
    case PlaceOtoco(w, x, y) =>
      OtocoIsBatch(b, w, x, y);
      var g := Otoco(n, n + 1, n + 2);
      assert Appending(b, Step(b, m), [FreshOrder(w, New, g, n), FreshOrder(x, PendingNew, g, n + 1),
        FreshOrder(y, PendingNew, g, n + 2)], [n], [[n, n + 1, n + 2]], g);
  }

  lemma PlacementKeepsInv(b: Book, m: Command)
    requires Inv(b) && IsPlacement(m)
    ensures Inv(Step(b, m)) && Extends(b, Step(b, m))
  {
    PlacementIsBatch(b, m);
    var r := Step(b, m);
    var added, live, lists, g :| Appending(b, r, added, live, lists, g);
    AppendKeepsInv(b, r, added, live, lists, g);
  }

  lemma StepKeepsInv(b: Book, m: Command)
    requires Inv(b) && Enabled(b, m)
    ensures Inv(Step(b, m))
    ensures Extends(b, Step(b, m))
  {
    match m
    case Cancel(id) => CancelKeepsInv(b, [id]);
    case CancelList(l) => CancelKeepsInv(b, b.lists[l]);
    case Tick(c) => PassKeepsInv(b, c);
    case _ => PlacementKeepsInv(b, m);
  }
}
