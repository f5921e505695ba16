/** One pass over the shared queue does to every order list what a pass over that list alone
    would do, and moves the funds by the sum of what the lists do. */
module Decomposition {
  import opened Common
  import opened Numbers
  import opened Orders
  import opened Books
  import opened BookInvariant

  // ---------- the reference: one list on its own ----------

  function Touch(o: Order, c: Candle): Order {
    if Ready(o, c) then o.(status := Filled) else o
  }

  /** Working first, then the pending order if it is live by then. */
  function StepOto(w: Order, p: Order, c: Candle): (Order, Order) {
    (Touch(w, c), Touch(if Ready(w, c) then p.(status := New) else p, c))
  }

  /** Above first; below gets its turn only if above did not fill. */
  function StepOco(a: Order, y: Order, c: Candle): (Order, Order) {
    if Ready(a, c) then (Touch(a, c), y.(status := OrderStatus.Canceled))
    else if Ready(y, c) then (a.(status := OrderStatus.Canceled), Touch(y, c))
    else (a, y)
  }

  function StepOtoco(w: Order, a: Order, y: Order, c: Candle): (Order, Order, Order) {
    var legs := if Ready(w, c) then StepOco(a.(status := New), y.(status := New), c) else StepOco(a, y, c);
    (Touch(w, c), legs.0, legs.1)
  }

  predicate Fits(g: Group, n: nat) {
    match g
    case Single(x) => x < n
    case Oto(w, p) => w < n && p < n
    case Oco(a, y) => a < n && y < n
    case Otoco(w, a, y) => w < n && a < n && y < n
  }

  /** Order x after the list it belongs to has been stepped alone. */
  function Alone(orders: seq<Order>, x: nat, c: Candle): Order
    requires x < |orders| && Fits(orders[x].group, |orders|)
  {
    match orders[x].group
    case Single(_) => Touch(orders[x], c)
    case Oto(w, p) => var r := StepOto(orders[w], orders[p], c); if x == w then r.0 else r.1
    case Oco(a, y) => var r := StepOco(orders[a], orders[y], c); if x == a then r.0 else r.1
    case Otoco(w, a, y) =>
      var r := StepOtoco(orders[w], orders[a], orders[y], c);
      if x == w then r.0 else if x == a then r.1 else r.2
  }

  /** Does order x fill when its list is stepped alone? */
  predicate FillsAlone(orders: seq<Order>, x: nat, c: Candle)
    requires x < |orders| && Fits(orders[x].group, |orders|)
  {
    Alone(orders, x, c).status.Filled? && !orders[x].status.Filled?
  }

  // ---------- what is still to come in the middle of a pass ----------

  predicate Waiting(orders: seq<Order>, rest: seq<nat>, x: nat) {
    x < |orders| && x in rest && orders[x].status.New?
  }

  predicate Due(orders: seq<Order>, rest: seq<nat>, c: Candle, x: nat) {
    Waiting(orders, rest, x) && Reaches(orders[x].terms, c)
  }

  /** x is above or a lone leg: it fills if it is waiting, or about to be triggered, and reached. */
  predicate LegDue(orders: seq<Order>, rest: seq<nat>, c: Candle, w: nat, x: nat) {
    && x < |orders|
    && (Due(orders, rest, c, w) || Waiting(orders, rest, x))
    && Reaches(orders[x].terms, c)
  }

  /** Will order x fill while the entries of rest, and what they trigger, are visited? */
  predicate Fires(orders: seq<Order>, rest: seq<nat>, c: Candle, x: nat) {
    x < |orders| &&
    match orders[x].group
    case Single(_) => Due(orders, rest, c, x)
    case Oto(w, _) => if x == w then Due(orders, rest, c, x) else LegDue(orders, rest, c, w, x)
    case Oco(a, _) => Due(orders, rest, c, x) && (x == a || !Due(orders, rest, c, a))
    case Otoco(w, a, _) =>
      if x == w then Due(orders, rest, c, x)
      else LegDue(orders, rest, c, w, x) && (x == a || !LegDue(orders, rest, c, w, a))
  }

  /** The status order x will have when rest has been visited. */
  ghost function Fate(orders: seq<Order>, rest: seq<nat>, c: Candle, x: nat): OrderStatus
    requires x < |orders|
  {
    if Fires(orders, rest, c, x) then Filled
    else match orders[x].group
    case Single(_) => orders[x].status
    case Oto(w, p) => if x == p && Fires(orders, rest, c, w) then New else orders[x].status
    case Oco(a, y) =>
      if Fires(orders, rest, c, if x == a then y else a) then Canceled else orders[x].status
    case Otoco(w, a, y) =>
      if x == w then orders[x].status
      else if Fires(orders, rest, c, if x == a then y else a) then Canceled
      else if Fires(orders, rest, c, w) then New else orders[x].status
  }

  /** The loop is about to visit id, the first entry of rest; next is the worklist afterwards. */
  ghost predicate AtVisit(b: Book, rest: seq<nat>, id: nat, c: Candle) {
    && WellFormed(b)
    && rest != [] && rest[0] == id && id < |b.orders|
    && Distinct(rest)
    && (forall x | x in rest :: x in b.queue)
    && LegsInOrder(b.orders, rest)
  }

  function Next(b: Book, rest: seq<nat>, id: nat, c: Candle): seq<nat>
    requires rest != [] && id < |b.orders|
  {
    rest[1..] + if Ready(b.orders[id], c) then b.orders[id].triggered else []
  }

  lemma NextMember(b: Book, rest: seq<nat>, id: nat, c: Candle, x: nat)
    requires AtVisit(b, rest, id, c)
    ensures x in Next(b, rest, id, c) <==>
      (x in rest && x != id) || (Ready(b.orders[id], c) && Triggers(b.orders[id].group, id, x))
  {
    assert GroupWired(b.orders, b.orders[id].group) && Has(b.orders[id].group, id);
    if x in rest && x != id {
      var k :| 0 <= k < |rest| && rest[k] == x;
      assert rest[1..][k - 1] == x;
    }
  }

  lemma NotBeforeAbove(b: Book, rest: seq<nat>, id: nat, c: Candle, a: nat)
    requires AtVisit(b, rest, id, c) && a < |b.orders| && AboveBelow(b.orders[a].group, a, id)
    ensures a !in rest
  {
    assert Has(b.orders[a].group, a) && GroupWired(b.orders, b.orders[a].group);
    forall k | 0 < k < |rest|
      ensures rest[k] != a
    {
      assert rest[k] in b.queue;
      assert !AboveBelow(b.orders[rest[k]].group, rest[k], rest[0]);
    }
  }

  /** Whether order x waits after the visit of id, which filled if ready holds. */
  ghost predicate Settles(orders: seq<Order>, rest: seq<nat>, id: nat, ready: bool, after: seq<Order>, next: seq<nat>,
    x: nat)
  {
    && x < |orders| == |after|
    && id < |orders|
    && after[x] == orders[x].(status := after[x].status)
    && (Waiting(after, next, x) <==>
         if ready && (Siblings(orders[id].group, id, x) || Triggers(orders[id].group, id, x))
         then Triggers(orders[id].group, id, x)
         else x != id && Waiting(orders, rest, x))
  }

  lemma VisitWaiting(b: Book, rest: seq<nat>, id: nat, c: Candle, x: nat)
    requires AtVisit(b, rest, id, c) && x < |b.orders|
    ensures Settles(b.orders, rest, id, Ready(b.orders[id], c), Visit(b, id, c).orders, Next(b, rest, id, c), x)
  {
    NextMember(b, rest, id, c, x);
    if Ready(b.orders[id], c) {
      FillIsFilling(b, id, c);
      assert GroupWired(b.orders, b.orders[id].group);
    }
  }

  /** All members of g are in the table and know g. */
  ghost predicate Present(orders: seq<Order>, g: Group) {
    Fits(g, |orders|) && Proper(g) &&
    match g
    case Single(x) => orders[x].group == g
    case Oto(w, p) => orders[w].group == g && orders[p].group == g
    case Oco(a, y) => orders[a].group == g && orders[y].group == g
    case Otoco(w, a, y) => orders[w].group == g && orders[a].group == g && orders[y].group == g
  }

  lemma GroupPresent(orders: seq<Order>, x: nat)
    requires Wired(orders) && x < |orders|
    ensures Present(orders, orders[x].group) && Has(orders[x].group, x)
  {
    var g := orders[x].group;
    assert Has(g, x) && GroupWired(orders, g);
    match g
    case Single(y) => assert Has(g, y);
    case Oto(w, p) => assert Has(g, w) && Has(g, p);
    case Oco(a, y) => assert Has(g, a) && Has(g, y);
    case Otoco(w, a, y) => assert Has(g, w) && Has(g, a) && Has(g, y);
  }

  /** When a leg has its turn, its working order is no longer live. */
  lemma WorkingIsOver(b: Book, rest: seq<nat>, id: nat, c: Candle, w: nat)
    requires AtVisit(b, rest, id, c) && w < |b.orders| && Triggers(b.orders[w].group, w, id)
    ensures !b.orders[w].status.New?
  {
    assert id in rest;
    assert id in b.queue;
  }

  /** Neither the working order of id nor its above sibling is waiting. */
  ghost predicate AheadOver(orders: seq<Order>, rest: seq<nat>, id: nat)
  {
    id < |orders| && Present(orders, orders[id].group) && Has(orders[id].group, id) &&
    match orders[id].group
    case Single(_) => true
    case Oto(w, p) => id == w || !Waiting(orders, rest, w)
    case Oco(a, _) => id == a || !Waiting(orders, rest, a)
    case Otoco(w, a, _) => id == w || (!Waiting(orders, rest, w) && (id == a || !Waiting(orders, rest, a)))
  }

  lemma AheadIsOver(b: Book, rest: seq<nat>, id: nat, c: Candle)
    requires AtVisit(b, rest, id, c)
    ensures AheadOver(b.orders, rest, id) && Waiting(b.orders, rest, id) == b.orders[id].status.New?
  {
    GroupPresent(b.orders, id);
    match b.orders[id].group
    case Single(_) =>
    case Oto(w, p) =>
      if id == p {
        WorkingIsOver(b, rest, id, c, w);
      }
    case Oco(a, y) =>
      if id == y {
        NotBeforeAbove(b, rest, id, c, a);
      }
    case Otoco(w, a, y) =>
      if id != w {
        WorkingIsOver(b, rest, id, c, w);
      }
      if id == y {
        NotBeforeAbove(b, rest, id, c, a);
      }
  }

  lemma VisitedFires(orders: seq<Order>, rest: seq<nat>, id: nat, c: Candle)
    requires AheadOver(orders, rest, id)
    ensures Fires(orders, rest, c, id) == Due(orders, rest, c, id)
  {
  }

  lemma FireAlikeAfter(orders: seq<Order>, rest: seq<nat>, id: nat, after: seq<Order>, next: seq<nat>, c: Candle,
    x: nat)
    requires x < |orders| && Present(orders, orders[x].group) && Has(orders[x].group, x)
    requires AheadOver(orders, rest, id)
    requires |after| == |orders|
    requires forall y: nat | Has(orders[x].group, y) ::
      Settles(orders, rest, id, Due(orders, rest, c, id), after, next, y)
    ensures Fires(after, next, c, x) == (x != id && Fires(orders, rest, c, x))
  {
    match orders[x].group
    case Single(y) => assert Has(orders[x].group, y);
    case Oto(w, p) => assert Has(orders[x].group, w) && Has(orders[x].group, p);
    case Oco(a, y) => assert Has(orders[x].group, a) && Has(orders[x].group, y);
    case Otoco(w, a, y) => assert Has(orders[x].group, w) && Has(orders[x].group, a) && Has(orders[x].group, y);
  }

  /** A visit settles the visited order and changes nothing about who else will fill. */
  lemma OthersFireAlike(b: Book, rest: seq<nat>, id: nat, c: Candle, x: nat)
    requires AtVisit(b, rest, id, c) && x < |b.orders|
    ensures Fires(Visit(b, id, c).orders, Next(b, rest, id, c), c, x) == (x != id && Fires(b.orders, rest, c, x))
    ensures Fires(b.orders, rest, c, id) == Ready(b.orders[id], c)
  {
    GroupPresent(b.orders, x);
    AheadIsOver(b, rest, id, c);
    VisitedFires(b.orders, rest, id, c);
    forall y: nat | Has(b.orders[x].group, y)
      ensures Settles(b.orders, rest, id, Ready(b.orders[id], c), Visit(b, id, c).orders, Next(b, rest, id, c), y)
    {
      VisitWaiting(b, rest, id, c, y);
    }
    FireAlikeAfter(b.orders, rest, id, Visit(b, id, c).orders, Next(b, rest, id, c), c, x);
  }

  lemma FateElsewhere(orders: seq<Order>, rest: seq<nat>, after: seq<Order>, next: seq<nat>, c: Candle, x: nat)
    requires x < |orders| == |after| && Present(orders, orders[x].group) && Has(orders[x].group, x)
    requires forall y: nat | Has(orders[x].group, y) :: Fires(after, next, c, y) == Fires(orders, rest, c, y)
    requires after[x] == orders[x]
    ensures Fate(after, next, c, x) == Fate(orders, rest, c, x)
  {
    match orders[x].group
    case Single(y) => assert Has(orders[x].group, y);
    case Oto(w, p) => assert Has(orders[x].group, w) && Has(orders[x].group, p);
    case Oco(a, y) => assert Has(orders[x].group, a) && Has(orders[x].group, y);
    case Otoco(w, a, y) => assert Has(orders[x].group, w) && Has(orders[x].group, a) && Has(orders[x].group, y);
  }

  /** After the fill of id, the fate of a member of its group. */
  lemma FateAfterFill(orders: seq<Order>, rest: seq<nat>, id: nat, after: seq<Order>, next: seq<nat>, c: Candle, x: nat)
    requires x < |orders| == |after| && AheadOver(orders, rest, id)
    requires orders[x].group == orders[id].group && Has(orders[x].group, x)
    requires Due(orders, rest, c, id)
    requires forall y: nat | Has(orders[x].group, y) ::
      Fires(after, next, c, y) == (y != id && Fires(orders, rest, c, y))
    requires after[x] == orders[x].(status := StatusAfterFill(orders[id].group, id, x, orders[x].status))
    ensures Fate(after, next, c, x) == Fate(orders, rest, c, x)
  {
    match orders[x].group
    case Single(y) => assert Has(orders[x].group, y);
    case Oto(w, p) => assert Has(orders[x].group, w) && Has(orders[x].group, p);
    case Oco(a, y) => assert Has(orders[x].group, a) && Has(orders[x].group, y);
    case Otoco(w, a, y) => assert Has(orders[x].group, w) && Has(orders[x].group, a) && Has(orders[x].group, y);
  }

  lemma OtherGroupUntouched(orders: seq<Order>, id: nat, x: nat)
    requires id < |orders| && x < |orders| && Present(orders, orders[id].group) && Has(orders[id].group, id)
    requires orders[x].group != orders[id].group
    ensures StatusAfterFill(orders[id].group, id, x, orders[x].status) == orders[x].status
  {
  }

  function BaseWorth(o: Order): real {
    BaseDelta(o.terms.side, o.terms.quantity)
  }

  function QuoteWorth(o: Order, c: Candle): real {
    QuoteDelta(o.terms.side, FillValue(o.terms, c))
  }

  lemma VisitTerms(b: Book, id: nat, c: Candle)
    requires Wired(b.orders) && id < |b.orders|
    ensures var r := Visit(b, id, c);
      && |r.orders| == |b.orders|
      && (forall x | 0 <= x < |b.orders| :: r.orders[x] == b.orders[x].(status := r.orders[x].status))
      && r.base == b.base + (if Ready(b.orders[id], c) then BaseWorth(b.orders[id]) else 0.0)
      && r.quote == b.quote + (if Ready(b.orders[id], c) then QuoteWorth(b.orders[id], c) else 0.0)
  {
    if Ready(b.orders[id], c) {
      FillIsFilling(b, id, c);
    }
  }

  lemma VisitKeepsFate(b: Book, rest: seq<nat>, id: nat, c: Candle, x: nat)
    requires AtVisit(b, rest, id, c) && x < |b.orders|
    ensures |Visit(b, id, c).orders| == |b.orders|
    ensures Visit(b, id, c).orders[x].(status := New) == b.orders[x].(status := New)
    ensures Fate(Visit(b, id, c).orders, Next(b, rest, id, c), c, x) == Fate(b.orders, rest, c, x)
  {
    GroupPresent(b.orders, x);
    AheadIsOver(b, rest, id, c);
    OthersFireAlike(b, rest, id, c, x);
    forall y: nat | Has(b.orders[x].group, y)
      ensures Fires(Visit(b, id, c).orders, Next(b, rest, id, c), c, y) == (y != id && Fires(b.orders, rest, c, y))
    {
      OthersFireAlike(b, rest, id, c, y);
    }
    VisitTerms(b, id, c);
    if Ready(b.orders[id], c) && b.orders[x].group == b.orders[id].group {
      FillIsFilling(b, id, c);
      FateAfterFill(b.orders, rest, id, Visit(b, id, c).orders, Next(b, rest, id, c), c, x);
    } else {
      if Ready(b.orders[id], c) {
        FillIsFilling(b, id, c);
        OtherGroupUntouched(b.orders, id, x);
        GroupPresent(b.orders, x);
      }
      FateElsewhere(b.orders, rest, Visit(b, id, c).orders, Next(b, rest, id, c), c, x);
    }
  }

  // ---------- the funds ----------

  function Leader(g: Group): nat {
    match g
    case Single(x) => x
    case Oto(w, _) => w
    case Oco(a, _) => a
    case Otoco(w, _, _) => w
  }

  /** What the members of g that fire are worth together. */
  ghost function GroupGain(g: Group, fires: nat -> bool, worth: nat -> real): real {
    var gain := (x: nat) => if fires(x) then worth(x) else 0.0;
    match g
    case Single(x) => gain(x)
    case Oto(w, p) => gain(w) + gain(p)
    case Oco(a, y) => gain(a) + gain(y)
    case Otoco(w, a, y) => gain(w) + gain(a) + gain(y)
  }

  /** The gain of the group led by order x, if it leads one. */
  ghost function LeaderGain(orders: seq<Order>, fires: nat -> bool, worth: nat -> real): nat -> real {
    (x: nat) => if x < |orders| && Leader(orders[x].group) == x then GroupGain(orders[x].group, fires, worth) else 0.0
  }

  ghost function TotalGain(orders: seq<Order>, fires: nat -> bool, worth: nat -> real): real {
    Sum(|orders|, LeaderGain(orders, fires, worth))
  }

  lemma GroupGainStep(g: Group, f: nat -> bool, f': nat -> bool, worth: nat -> real, id: nat)
    requires Proper(g)
    requires forall y: nat | Has(g, y) :: f'(y) == (y != id && f(y))
    ensures GroupGain(g, f', worth) == GroupGain(g, f, worth) - if Has(g, id) && f(id) then worth(id) else 0.0
  {
    match g
    case Single(y) => assert Has(g, y);
    case Oto(w, p) => assert Has(g, w) && Has(g, p);
    case Oco(a, y) => assert Has(g, a) && Has(g, y);
    case Otoco(w, a, y) => assert Has(g, w) && Has(g, a) && Has(g, y);
  }

  lemma LeaderGainStep(orders: seq<Order>, after: seq<Order>, f: nat -> bool, f': nat -> bool, worth: nat -> real,
    id: nat, x: nat)
    requires x < |orders| == |after| && id < |orders| && after[x].group == orders[x].group
    requires Present(orders, orders[x].group) && Present(orders, orders[id].group) && Has(orders[id].group, id)
    requires forall y: nat | y < |orders| :: f'(y) == (y != id && f(y))
    ensures LeaderGain(after, f', worth)(x) == LeaderGain(orders, f, worth)(x)
      - if x == Leader(orders[id].group) && f(id) then worth(id) else 0.0
  {
    var h := orders[x].group;
    forall y: nat | Has(h, y)
      ensures y < |orders| && orders[y].group == h
    {
    }
    GroupGainStep(h, f, f', worth, id);
  }

  /** One order ceasing to fire takes its worth out of the total. */
  lemma TotalGainStep(orders: seq<Order>, after: seq<Order>, f: nat -> bool, f': nat -> bool, worth: nat -> real,
    id: nat)
    requires Wired(orders) && |after| == |orders| && id < |orders|
    requires forall x | 0 <= x < |orders| :: after[x].group == orders[x].group
    requires forall x: nat | x < |orders| :: f'(x) == (x != id && f(x))
    ensures TotalGain(after, f', worth) == TotalGain(orders, f, worth) - if f(id) then worth(id) else 0.0
  {
    GroupPresent(orders, id);
    var lead := Leader(orders[id].group);
    forall x: nat | x < |orders|
      ensures LeaderGain(after, f', worth)(x)
        == LeaderGain(orders, f, worth)(x) - if x == lead && f(id) then worth(id) else 0.0
    {
      GroupPresent(orders, x);
      LeaderGainStep(orders, after, f, f', worth, id, x);
    }
    SumBump(|orders|, LeaderGain(orders, f, worth), LeaderGain(after, f', worth), lead);
  }

  ghost function ToFire(orders: seq<Order>, rest: seq<nat>, c: Candle): nat -> bool {
    (x: nat) => Fires(orders, rest, c, x)
  }

  lemma VisitKeepsForecast(b: Book, rest: seq<nat>, id: nat, c: Candle, worth: nat -> real)
    requires AtVisit(b, rest, id, c)
    ensures var r := Visit(b, id, c);
      |r.orders| == |b.orders| &&
      TotalGain(r.orders, ToFire(r.orders, Next(b, rest, id, c), c), worth)
        == TotalGain(b.orders, ToFire(b.orders, rest, c), worth) - if Ready(b.orders[id], c) then worth(id) else 0.0
  {
    var r := Visit(b, id, c);
    var f, f' := ToFire(b.orders, rest, c), ToFire(r.orders, Next(b, rest, id, c), c);
    VisitTerms(b, id, c);
    forall x: nat | x < |b.orders|
      ensures f'(x) == (x != id && f(x)) && f(id) == Ready(b.orders[id], c)
    {
      OthersFireAlike(b, rest, id, c, x);
    }
    TotalGainStep(b.orders, r.orders, f, f', worth, id);
  }

  // ---------- from the queue to the lists ----------

  lemma RestAtVisit(b: Book, i: nat, c: Candle)
    requires WellFormed(b) && LegsInOrder(b.orders, b.queue) && i < |b.queue|
    ensures b.queue[i] < |b.orders|
    ensures AtVisit(b, b.queue[i..], b.queue[i], c)
    ensures i + 1 <= |Visit(b, b.queue[i], c).queue|
    ensures Next(b, b.queue[i..], b.queue[i], c) == Visit(b, b.queue[i], c).queue[i + 1..]
  {
    var rest := b.queue[i..];
    assert forall k | 0 <= k < |rest| :: rest[k] == b.queue[i + k];
    assert (b.queue + b.orders[b.queue[i]].triggered)[i + 1..] == rest[1..] + b.orders[b.queue[i]].triggered;
    assert b.queue[i + 1..] == rest[1..];
  }

  lemma VisitMeetsFate(b: Book, i: nat, c: Candle, x: nat)
    requires WellFormed(b) && LegsInOrder(b.orders, b.queue) && i < |b.queue| && x < |b.orders|
    ensures b.queue[i] < |b.orders|
    ensures var r := Visit(b, b.queue[i], c);
      && i + 1 <= |r.queue|
      && |r.orders| == |b.orders|
      && r.orders[x] == b.orders[x].(status := r.orders[x].status)
      && Fate(r.orders, r.queue[i + 1..], c, x) == Fate(b.orders, b.queue[i..], c, x)
  {
    RestAtVisit(b, i, c);
    VisitTerms(b, b.queue[i], c);
    VisitKeepsFate(b, b.queue[i..], b.queue[i], c, x);
  }

  lemma FateDone(orders: seq<Order>, c: Candle, x: nat)
    requires x < |orders|
    ensures Fate(orders, [], c, x) == orders[x].status
  {
  }

  lemma {:induction false} RunMeetsFate(b: Book, i: nat, c: Candle, x: nat)
    requires Core(b) && i <= |b.queue| && x < |b.orders|
    ensures |Run(b, i, c).orders| == |b.orders|
    ensures Run(b, i, c).orders[x] == b.orders[x].(status := Fate(b.orders, b.queue[i..], c, x))
    decreases |b.orders| - i
  {
    if i == |b.queue| {
      assert b.queue[i..] == [];
      FateDone(b.orders, c, x);
    } else {
      VisitMeetsFate(b, i, c, x);
      RunUnfold(b, i, c);
      VisitKeepsCore(b, b.queue[i], c);
      RunMeetsFate(Visit(b, b.queue[i], c), i + 1, c, x);
    }
  }

  lemma NothingLeft(orders: seq<Order>, c: Candle, worth: nat -> real)
    ensures TotalGain(orders, ToFire(orders, [], c), worth) == 0.0
  {
    var none := (x: nat) => 0.0;
    SumAgree(|orders|, LeaderGain(orders, ToFire(orders, [], c), worth), none);
    SumZero(|orders|, none);
  }

  /** worth prices the base side, or the quote side, of every order of the table. */
  ghost predicate PricesBase(orders: seq<Order>, worth: nat -> real) {
    forall x: nat | x < |orders| :: worth(x) == BaseWorth(orders[x])
  }

  ghost predicate PricesQuote(orders: seq<Order>, c: Candle, worth: nat -> real) {
    forall x: nat | x < |orders| :: worth(x) == QuoteWorth(orders[x], c)
  }

  /** The funds plus what is still to come stay the same from visit to visit. */
  lemma VisitMeetsForecast(b: Book, i: nat, c: Candle, worth: nat -> real)
    requires WellFormed(b) && LegsInOrder(b.orders, b.queue) && i < |b.queue|
    ensures b.queue[i] < |b.orders|
    ensures var r := Visit(b, b.queue[i], c);
      && i + 1 <= |r.queue|
      && TotalGain(r.orders, ToFire(r.orders, r.queue[i + 1..], c), worth)
           == TotalGain(b.orders, ToFire(b.orders, b.queue[i..], c), worth)
              - if Ready(b.orders[b.queue[i]], c) then worth(b.queue[i]) else 0.0
  {
    RestAtVisit(b, i, c);
    VisitKeepsForecast(b, b.queue[i..], b.queue[i], c, worth);
  }

  lemma SameTermsSamePrices(orders: seq<Order>, after: seq<Order>, c: Candle, base: nat -> real, quote: nat -> real)
    requires |after| == |orders|
    requires forall x | 0 <= x < |orders| :: after[x].terms == orders[x].terms
    requires PricesBase(orders, base) && PricesQuote(orders, c, quote)
    ensures PricesBase(after, base) && PricesQuote(after, c, quote)
  {
    forall x: nat | x < |orders|
      ensures base(x) == BaseWorth(after[x]) && quote(x) == QuoteWorth(after[x], c)
    {
      assert base(x) == BaseWorth(orders[x]) && quote(x) == QuoteWorth(orders[x], c);
    }
  }

  lemma VisitPays(b: Book, id: nat, c: Candle, base: nat -> real, quote: nat -> real)
    requires Wired(b.orders) && id < |b.orders|
    requires PricesBase(b.orders, base) && PricesQuote(b.orders, c, quote)
    ensures var r := Visit(b, id, c);
      && PricesBase(r.orders, base) && PricesQuote(r.orders, c, quote)
      && r.base == b.base + (if Ready(b.orders[id], c) then base(id) else 0.0)
      && r.quote == b.quote + (if Ready(b.orders[id], c) then quote(id) else 0.0)
  {
    var after := Visit(b, id, c).orders;
    VisitTerms(b, id, c);
    forall x | 0 <= x < |b.orders|
      ensures after[x].terms == b.orders[x].terms
    {
      assert after[x] == b.orders[x].(status := after[x].status);
    }
    SameTermsSamePrices(b.orders, after, c, base, quote);
    assert base(id) == BaseWorth(b.orders[id]) && quote(id) == QuoteWorth(b.orders[id], c);
  }

  lemma {:induction false} RunMeetsForecast(b: Book, i: nat, c: Candle, base: nat -> real, quote: nat -> real)
    requires Core(b) && i <= |b.queue| && PricesBase(b.orders, base) && PricesQuote(b.orders, c, quote)
    ensures Run(b, i, c).base == b.base + TotalGain(b.orders, ToFire(b.orders, b.queue[i..], c), base)
    ensures Run(b, i, c).quote == b.quote + TotalGain(b.orders, ToFire(b.orders, b.queue[i..], c), quote)
    decreases |b.orders| - i
  {
    if i == |b.queue| {
      assert b.queue[i..] == [];
      NothingLeft(b.orders, c, base);
      NothingLeft(b.orders, c, quote);
    } else {
      RunUnfold(b, i, c);
      VisitPays(b, b.queue[i], c, base, quote);
      VisitMeetsForecast(b, i, c, base);
      VisitMeetsForecast(b, i, c, quote);
      VisitKeepsCore(b, b.queue[i], c);
      RunMeetsForecast(Visit(b, b.queue[i], c), i + 1, c, base, quote);
    }
  }

  lemma FateIsAlone(orders: seq<Order>, rest: seq<nat>, c: Candle, x: nat)
    requires x < |orders| && Present(orders, orders[x].group) && Has(orders[x].group, x)
    requires forall y: nat | Has(orders[x].group, y) && y < |orders| :: orders[y].status.New? ==> y in rest
    requires forall w: nat, p: nat | Triggers(orders[x].group, w, p) && w < |orders| && p < |orders| ::
      orders[w].status.New? ==> orders[p].status.PendingNew? || orders[p].status.Canceled?
    ensures Alone(orders, x, c) == orders[x].(status := Fate(orders, rest, c, x))
    ensures FillsAlone(orders, x, c) == Fires(orders, rest, c, x)
  {
    match orders[x].group
    case Single(y) => assert Has(orders[x].group, y);
    case Oto(w, p) =>
      assert Has(orders[x].group, w) && Has(orders[x].group, p);
      assert Triggers(orders[x].group, w, p);
    case Oco(a, y) => assert Has(orders[x].group, a) && Has(orders[x].group, y);
    case Otoco(w, a, y) =>
      assert Has(orders[x].group, w) && Has(orders[x].group, a) && Has(orders[x].group, y);
      assert Triggers(orders[x].group, w, a) && Triggers(orders[x].group, w, y);
  }

  lemma StartIsAlone(b: Book, c: Candle, x: nat)
    requires Core(b) && x < |b.orders|
    ensures Fits(b.orders[x].group, |b.orders|)
    ensures Alone(b.orders, x, c) == b.orders[x].(status := Fate(b.orders, b.queue, c, x))
    ensures FillsAlone(b.orders, x, c) == Fires(b.orders, b.queue, c, x)
  {
    GroupPresent(b.orders, x);
    FateIsAlone(b.orders, b.queue, c, x);
  }

  ghost function AloneFires(orders: seq<Order>, c: Candle): nat -> bool {
    (x: nat) => x < |orders| && Fits(orders[x].group, |orders|) && FillsAlone(orders, x, c)
  }

  /** The decomposition theorem. Whatever the interleaving of lists in the queue, a pass leaves
      every order as its list stepped alone would, and the funds move by the sum over the lists. */
  lemma PassDecomposes(b: Book, c: Candle, base: nat -> real, quote: nat -> real)
    requires Inv(b) && PricesBase(b.orders, base) && PricesQuote(b.orders, c, quote)
    ensures |Pass(b, c).orders| == |b.orders|
    ensures forall x | 0 <= x < |b.orders| ::
      Fits(b.orders[x].group, |b.orders|) && Pass(b, c).orders[x] == Alone(b.orders, x, c)
    ensures Pass(b, c).base == b.base + TotalGain(b.orders, AloneFires(b.orders, c), base)
    ensures Pass(b, c).quote == b.quote + TotalGain(b.orders, AloneFires(b.orders, c), quote)
  {
    assert b.queue[0..] == b.queue;
    PassKeepsInv(b, c);
    forall x | 0 <= x < |b.orders|
      ensures Fits(b.orders[x].group, |b.orders|) && Pass(b, c).orders[x] == Alone(b.orders, x, c)
    {
      RunMeetsFate(b, 0, c, x);
      StartIsAlone(b, c, x);
    }
    RunMeetsForecast(b, 0, c, base, quote);
    AloneGainAgrees(b, c, base);
    AloneGainAgrees(b, c, quote);
  }

  lemma AloneGainAgrees(b: Book, c: Candle, worth: nat -> real)
    requires Core(b)
    ensures TotalGain(b.orders, AloneFires(b.orders, c), worth)
      == TotalGain(b.orders, ToFire(b.orders, b.queue, c), worth)
  {
    var f, f' := AloneFires(b.orders, c), ToFire(b.orders, b.queue, c);
    forall x: nat | x < |b.orders|
      ensures f(x) == f'(x)
    {
      StartIsAlone(b, c, x);
    }
    SameFiresSameGain(b.orders, f, f', worth);
  }

  lemma SameFiresSameGain(orders: seq<Order>, f: nat -> bool, f': nat -> bool, worth: nat -> real)
    requires Wired(orders) && forall x: nat | x < |orders| :: f(x) == f'(x)
    ensures TotalGain(orders, f, worth) == TotalGain(orders, f', worth)
  {
    forall x: nat | x < |orders|
      ensures LeaderGain(orders, f, worth)(x) == LeaderGain(orders, f', worth)(x)
    {
      GroupPresent(orders, x);
    }
    SumAgree(|orders|, LeaderGain(orders, f, worth), LeaderGain(orders, f', worth));
  }
}
