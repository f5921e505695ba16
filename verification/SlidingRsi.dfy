/** The relative strength index of the grid strategy: running sums over a sliding window of price
    moves (wedge/strategy/grid_strategy.cc, lines 11-55). */
module SlidingRsi {
  import opened Common
  import opened Numbers

  datatype Rsi = Rsi(period: nat, sumGain: real, sumLoss: real, last: Option<real>, gains: seq<real>, losses: seq<real>)

  function Fresh(period: nat): Rsi {
    Rsi(period, 0.0, 0.0, None, [], [])
  }

  function Push(r: Rsi, price: real): Rsi {
    match r.last
    case None => r.(last := Some(price))
    case Some(last) =>
      var gain, loss := Rise(last, price), Rise(price, last);
      var gains, losses := r.gains + [gain], r.losses + [loss];
      var grown := r.(last := Some(price), gains := gains, losses := losses,
        sumGain := r.sumGain + gain, sumLoss := r.sumLoss + loss);
      if |gains| > r.period then
        grown.(gains := gains[1..], losses := losses[1..],
          sumGain := grown.sumGain - gains[0],
          sumLoss := grown.sumLoss - (if losses == [] then 0.0 else losses[0]))
      else grown
  }

  /** The reading; with the non-negative sums of a window, 1 + rs is never zero. Dividing by a zero
      loss gives the limit 100 when there were gains, and no number when there were none. */
  datatype RsiValue = NoValue | NotANumber | Percent(percent: real)

  function Value(r: Rsi): RsiValue {
    if |r.gains| != r.period then NoValue
    else if r.sumLoss == 0.0 then (if r.sumGain == 0.0 then NotANumber else Percent(100.0))
    else
      var rs := r.sumGain / r.sumLoss;
      if 1.0 + rs == 0.0 then NotANumber else Percent(100.0 - 100.0 / (1.0 + rs))
  }

  /** The condition under which the strategy withdraws its orders. */
  predicate Low(r: Rsi) {
    Value(r).Percent? && Value(r).percent < 20.0
  }

  /** The strategy's from_json feeds the prices of its configuration to the index. */
  function PushAll(r: Rsi, prices: seq<real>): Rsi
    decreases |prices|
  {
    if prices == [] then r else PushAll(Push(r, prices[0]), prices[1..])
  }

  lemma PushAllStep(r: Rsi, prices: seq<real>, i: nat)
    requires i < |prices|
    ensures PushAll(r, prices[i..]) == PushAll(Push(r, prices[i]), prices[i + 1..])
  {
    assert prices[i..][1..] == prices[i + 1..];
  }

  function Preload(prices: seq<real>): Rsi {
    PushAll(Fresh(20), prices)
  }

  function Repeat(x: real, n: nat): (s: seq<real>)
    ensures |s| == n && forall i | 0 <= i < n :: s[i] == x
  {
    seq(n, _ => x)
  }

  /** The index after n moves of zero from price p. */
  function Full(p: real, n: nat): Rsi {
    Rsi(20, 0.0, 0.0, Some(p), Repeat(0.0, n), Repeat(0.0, n))
  }

  /** Equal prices fill the window with zeros; a full window stays as it is. */
  lemma PushFlat(p: real, n: nat)
    ensures Push(Fresh(20), p) == Full(p, 0)
    ensures n < 20 ==> Push(Full(p, n), p) == Full(p, n + 1) && Value(Full(p, n)) == NoValue
    ensures Push(Full(p, 20), p) == Full(p, 20) && Value(Full(p, 20)) == NotANumber
  {
    assert n < 20 ==> Repeat(0.0, n) + [0.0] == Repeat(0.0, n + 1);
    assert (Repeat(0.0, 20) + [0.0])[1..] == Repeat(0.0, 20);
  }

  // ---------- the history behind the window ----------

  function Total(s: seq<real>): real {
    if s == [] then 0.0 else Total(s[..|s| - 1]) + s[|s| - 1]
  }

  /** The prices that the window spans: at most period moves. */
  function Recent(period: nat, prices: seq<real>): seq<real> {
    if |prices| <= period + 1 then prices else prices[|prices| - 1 - period..]
  }

  /** r is what a fresh index has become after the given prices. */
  ghost predicate Tracks(r: Rsi, prices: seq<real>) {
    var xs := Recent(r.period, prices);
    && r.last == (if prices == [] then None else Some(prices[|prices| - 1]))
    && r.gains == UpMoves(xs) && r.losses == DownMoves(xs)
    && r.sumGain == Total(r.gains) && r.sumLoss == Total(r.losses)
  }

  lemma TotalAppend(s: seq<real>, x: real)
    ensures Total(s + [x]) == Total(s) + x
  {
    assert (s + [x])[..|s|] == s;
  }

  lemma {:induction false} TotalDropFirst(s: seq<real>)
    requires s != []
    ensures Total(s[1..]) == Total(s) - s[0]
  {
    if |s| > 1 {
      TotalDropFirst(s[..|s| - 1]);
      assert s[1..][..|s| - 2] == s[..|s| - 1][1..];
    }
  }

  lemma RecentAppend(period: nat, prices: seq<real>, price: real)
    requires prices != []
    ensures var xs := Recent(period, prices);
      && xs != [] && xs[|xs| - 1] == prices[|prices| - 1] && |xs| <= period + 1
      && Recent(period, prices + [price]) == if |xs| > period then (xs + [price])[1..] else xs + [price]
  {
  }

  /** The window part of Tracks, for the prices xs it spans. */
  ghost predicate Spans(r: Rsi, xs: seq<real>) {
    && r.gains == UpMoves(xs) && r.losses == DownMoves(xs)
    && r.sumGain == Total(r.gains) && r.sumLoss == Total(r.losses)
  }

  lemma PushSpans(r: Rsi, xs: seq<real>, price: real)
    requires Spans(r, xs) && 0 < |xs| <= r.period + 1 && r.last == Some(xs[|xs| - 1])
    ensures Spans(Push(r, price), if |xs| > r.period then (xs + [price])[1..] else xs + [price])
  {
    var last := xs[|xs| - 1];
    MovesAppend(xs, price);
    TotalAppend(r.gains, Rise(last, price));
    TotalAppend(r.losses, Rise(price, last));
    if |xs| > r.period {
      MovesDropFirst(xs + [price]);
      TotalDropFirst(UpMoves(xs + [price]));
      TotalDropFirst(DownMoves(xs + [price]));
    }
  }

  /** Pushing a price keeps the sums equal to those over the last period moves of the history. */
  lemma PushTracks(r: Rsi, prices: seq<real>, price: real)
    requires Tracks(r, prices)
    ensures Tracks(Push(r, price), prices + [price])
  {
    if prices == [] {
      assert prices + [price] == [price];
      assert Recent(r.period, [price]) == [price];
    } else {
      RecentAppend(r.period, prices, price);
      PushSpans(r, Recent(r.period, prices), price);
    }
  }

  lemma {:induction false} PushAllTracks(r: Rsi, prices: seq<real>, more: seq<real>)
    requires Tracks(r, prices)
    ensures Tracks(PushAll(r, more), prices + more)
    decreases |more|
  {
    if more == [] {
      assert prices + more == prices;
    } else {
      var seen := prices + [more[0]];
      assert seen + more[1..] == prices + more;
      PushTracks(r, prices, more[0]);
      PushAllTracks(Push(r, more[0]), seen, more[1..]);
      PushAllFirst(r, more);
    }
  }

  lemma PushAllFirst(r: Rsi, more: seq<real>)
    requires more != []
    ensures PushAll(r, more) == PushAll(Push(r, more[0]), more[1..])
  {
  }

  /** The loaded index has seen exactly the configured prices. */
  lemma PreloadTracks(prices: seq<real>)
    ensures Tracks(Preload(prices), prices) && Preload(prices).period == 20
  {
    assert Recent(20, []) == [];
    PushAllTracks(Fresh(20), [], prices);
    assert [] + prices == prices;
    PushAllPeriod(Fresh(20), prices);
  }

  lemma {:induction false} PushAllPeriod(r: Rsi, prices: seq<real>)
    ensures PushAll(r, prices).period == r.period
    decreases |prices|
  {
    if prices != [] {
      PushAllPeriod(Push(r, prices[0]), prices[1..]);
    }
  }

  /** Gains minus losses telescope to the price change across the window. */
  lemma {:induction false} MovesTelescope(xs: seq<real>)
    requires xs != []
    ensures Total(UpMoves(xs)) - Total(DownMoves(xs)) == xs[|xs| - 1] - xs[0]
    ensures Total(UpMoves(xs)) >= 0.0 && Total(DownMoves(xs)) >= 0.0
  {
    if |xs| > 1 {
      var front := xs[..|xs| - 1];
      MovesTelescope(front);
      MovesAppend(front, xs[|xs| - 1]);
      assert front + [xs[|xs| - 1]] == xs;
      TotalAppend(UpMoves(front), Rise(front[|front| - 1], xs[|xs| - 1]));
      TotalAppend(DownMoves(front), Rise(xs[|xs| - 1], front[|front| - 1]));
    }
  }

  /** After more than period prices, the running sums differ by the last price minus the price
      period steps earlier. */
  lemma SumsTelescope(r: Rsi, prices: seq<real>)
    requires Tracks(r, prices) && |prices| > r.period
    ensures r.sumGain - r.sumLoss == prices[|prices| - 1] - prices[|prices| - 1 - r.period]
    ensures |r.gains| == r.period
  {
    MovesTelescope(Recent(r.period, prices));
  }

  lemma {:induction false} TotalOfZeros(s: seq<real>)
    requires forall i | 0 <= i < |s| :: s[i] == 0.0
    ensures Total(s) == 0.0
  {
    if s != [] {
      TotalOfZeros(s[..|s| - 1]);
    }
  }

  /** Prices that never rise have no gains, and their losses are what they lose. */
  lemma FallingTotals(xs: seq<real>)
    requires xs != [] && forall i | 0 <= i < |xs| - 1 :: xs[i + 1] <= xs[i]
    ensures Total(UpMoves(xs)) == 0.0 && Total(DownMoves(xs)) == xs[0] - xs[|xs| - 1]
  {
    forall i | 0 <= i < |UpMoves(xs)|
      ensures UpMoves(xs)[i] == 0.0
    {
      MovesElement(xs, i);
    }
    TotalOfZeros(UpMoves(xs));
    MovesTelescope(xs);
  }

  /** And the other way round. */
  lemma RisingTotals(xs: seq<real>)
    requires xs != [] && forall i | 0 <= i < |xs| - 1 :: xs[i] <= xs[i + 1]
    ensures Total(DownMoves(xs)) == 0.0 && Total(UpMoves(xs)) == xs[|xs| - 1] - xs[0]
  {
    forall i | 0 <= i < |DownMoves(xs)|
      ensures DownMoves(xs)[i] == 0.0
    {
      MovesElement(xs, i);
    }
    TotalOfZeros(DownMoves(xs));
    MovesTelescope(xs);
  }

  /** A full window whose prices never fall and end higher than they began reads 100. */
  lemma RisingReads(r: Rsi, prices: seq<real>)
    requires Tracks(r, prices) && |prices| > r.period
    requires var xs := prices[|prices| - 1 - r.period..];
      (forall i | 0 <= i < |xs| - 1 :: xs[i] <= xs[i + 1]) && xs[0] < xs[|xs| - 1]
    ensures Value(r) == Percent(100.0)
  {
    var xs := prices[|prices| - 1 - r.period..];
    assert Recent(r.period, prices) == xs;
    assert forall i | 0 <= i < |xs| - 1 :: xs[i] <= xs[i + 1];
    RisingTotals(xs);
  }

  /** The reading in full: the share of the gains among all moves of a full window, in percent. */
  lemma ReadingInFull(r: Rsi, prices: seq<real>)
    requires Tracks(r, prices)
    ensures |r.gains| != r.period <==> Value(r) == NoValue
    ensures |r.gains| == r.period && r.sumGain + r.sumLoss == 0.0 ==> Value(r) == NotANumber
    ensures |r.gains| == r.period && r.sumGain + r.sumLoss != 0.0 ==>
      Value(r) == Percent(100.0 * r.sumGain / (r.sumGain + r.sumLoss))
  {
    SumsNonNegative(r, prices);
    if r.sumLoss > 0.0 {
      ShareOfGains(r.sumGain, r.sumLoss);
    } else if r.sumGain > 0.0 {
      assert 100.0 * r.sumGain / r.sumGain == 100.0;
    }
  }

  lemma ShareOfGains(gain: real, loss: real)
    requires gain >= 0.0 && loss > 0.0
    ensures 1.0 + gain / loss > 0.0
    ensures 100.0 - 100.0 / (1.0 + gain / loss) == 100.0 * gain / (gain + loss)
  {
    RatioNonNegative(gain, loss);
    var rs, all := gain / loss, gain + loss;
    assert rs * loss == gain;
    assert (1.0 + rs) * loss == all;
    QuotientIs(100.0, 1.0 + rs, 100.0 * loss / all);
    assert 100.0 * gain / all + 100.0 * loss / all == 100.0;
  }

  /** A percentage below 20 means that losses exceed four times the gains. */
  lemma LowPercent(gain: real, loss: real)
    requires gain >= 0.0 && loss > 0.0
    ensures 1.0 + gain / loss > 0.0
    ensures 100.0 - 100.0 / (1.0 + gain / loss) < 20.0 <==> 4.0 * gain < loss
  {
    var rs := gain / loss;
    assert rs * loss == gain;
    RatioNonNegative(gain, loss);
    LowRatio(rs);
    RatioBelow(gain, loss, rs);
  }

  /** The strategy withdraws exactly when the window is full and losses exceed four times gains. */
  lemma LowExactly(r: Rsi, prices: seq<real>)
    requires Tracks(r, prices)
    ensures Low(r) <==> |r.gains| == r.period && 4.0 * r.sumGain < r.sumLoss
  {
    SumsNonNegative(r, prices);
    if r.sumLoss > 0.0 {
      LowPercent(r.sumGain, r.sumLoss);
    }
  }

  lemma SumsNonNegative(r: Rsi, prices: seq<real>)
    requires Tracks(r, prices)
    ensures r.sumGain >= 0.0 && r.sumLoss >= 0.0
  {
    if prices != [] {
      MovesTelescope(Recent(r.period, prices));
    }
  }

  lemma LowRatio(rs: real)
    requires rs >= 0.0
    ensures 100.0 - 100.0 / (1.0 + rs) < 20.0 <==> rs < 0.25
  {
    var q := 100.0 / (1.0 + rs);
    assert q * (1.0 + rs) == 100.0;
    if rs < 0.25 {
      assert q * 1.25 > q * (1.0 + rs);
    } else {
      assert q * 1.25 <= q * (1.0 + rs);
    }
  }

  lemma RatioBelow(gain: real, loss: real, rs: real)
    requires gain >= 0.0 && loss > 0.0 && rs * loss == gain
    ensures rs < 0.25 <==> 4.0 * gain < loss
  {
    assert (0.25 - rs) * loss == 0.25 * loss - gain;
  }

  lemma RatioNonNegative(gain: real, loss: real)
    requires gain >= 0.0 && loss > 0.0
    ensures gain / loss >= 0.0
  {
  }

  // ---------- the class ----------

  class RelativeStrengthIndex {
    const period: nat
    var sumLoss: real
    var sumGain: real
    var lastPrice: Option<real>
    var gains: seq<real>
    var losses: seq<real>
    ghost var prices: seq<real>

    ghost function State(): Rsi
      reads this
    {
      Rsi(period, sumGain, sumLoss, lastPrice, gains, losses)
    }

    ghost predicate Valid()
      reads this
    {
      Tracks(State(), prices)
    }

    constructor (period: nat := 20)
      ensures Valid() && State() == Fresh(period) && prices == []
    {
      this.period := period;
      sumLoss, sumGain := 0.0, 0.0;
      lastPrice := None;
      gains, losses := [], [];
      prices := [];
    }

    method Update(price: real)
      requires Valid()
      modifies this
      ensures Valid() && prices == old(prices) + [price]
      ensures State() == Push(old(State()), price)
    {
      PushTracks(State(), prices, price);
      Record(price);
      prices := prices + [price];
    }

    method Record(price: real)
      requires |gains| == |losses|
      modifies this`lastPrice, this`gains, this`losses, this`sumGain, this`sumLoss
      ensures State() == Push(old(State()), price)
    {
      if lastPrice == None {
        lastPrice := Some(price);
        return;
      }
      var change := price - lastPrice.value;
      lastPrice := Some(price);
      var gain := if change > 0.0 then change else 0.0;
      var loss := if change < 0.0 then -change else 0.0;
      gains := gains + [gain];
      losses := losses + [loss];
      sumGain := sumGain + gain;
      sumLoss := sumLoss + loss;
      if |gains| > period {
        sumGain := sumGain - gains[0];
        sumLoss := sumLoss - losses[0];
        gains := gains[1..];
        losses := losses[1..];
      }
    }

    method Reading() returns (v: RsiValue)
      requires Valid()
      ensures v == Value(State())
    {
      if period != |gains| {
        return NoValue;
      }
      if sumLoss == 0.0 {
        return if sumGain == 0.0 then NotANumber else Percent(100.0);
      }
      SumsNonNegative(State(), prices);
      var rs := sumGain / sumLoss;
      RatioNonNegative(sumGain, sumLoss);
      v := Percent(100.0 - 100.0 / (1.0 + rs));
    }
  }
}
