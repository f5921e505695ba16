/** The exponential moving average (wedge/indicator/average/ema_algo.h) and the relative strength
    index that keeps one pair of averages for each of 24 interleaved price sequences
    (wedge/indicator/momentum/rsi.h). */
module InterleavedRsi {
  import opened Common
  import opened Numbers

  const CYCLE: nat := 24

  // ---------- the moving average ----------

  function Alpha(period: nat): real {
    2.0 / (period as real + 1.0)
  }

  /** The average as a function of all the prices it was given. */
  function EmaOf(alpha: real, xs: seq<real>): real {
    if xs == [] then 0.0
    else if |xs| == 1 then xs[0]
    else xs[|xs| - 1] * alpha + (1.0 - alpha) * EmaOf(alpha, xs[..|xs| - 1])
  }

  lemma Mix(alpha: real, x: real, y: real, lo: real, hi: real)
    requires 0.0 <= alpha <= 1.0 && lo <= x <= hi && lo <= y <= hi
    ensures lo <= x * alpha + (1.0 - alpha) * y <= hi
  {
    var slack := x * alpha + (1.0 - alpha) * y;
    assert slack - lo == (x - lo) * alpha + (1.0 - alpha) * (y - lo);
    ProductNonNegative(x - lo, alpha);
    ProductNonNegative(1.0 - alpha, y - lo);
    ProductNonNegative(hi - x, alpha);
    ProductNonNegative(1.0 - alpha, hi - y);
    assert hi - slack == (hi - x) * alpha + (1.0 - alpha) * (hi - y);
  }

  /** The average stays within the bounds of its inputs. */
  lemma {:induction false} EmaBounded(period: nat, xs: seq<real>, lo: real, hi: real)
    requires period > 0 && xs != [] && forall i | 0 <= i < |xs| :: lo <= xs[i] <= hi
    ensures lo <= EmaOf(Alpha(period), xs) <= hi
  {
    if |xs| > 1 {
      EmaBounded(period, xs[..|xs| - 1], lo, hi);
      Mix(Alpha(period), xs[|xs| - 1], EmaOf(Alpha(period), xs[..|xs| - 1]), lo, hi);
    }
  }

  function Power(x: real, n: nat): real {
    if n == 0 then 1.0 else x * Power(x, n - 1)
  }

  /** The weight of input i among n: the first one counts in full, the others by alpha, and each loses
      a share of alpha with every later input. */
  function Weight(alpha: real, n: nat, i: nat): real
    requires i < n
  {
    (if i == 0 then 1.0 else alpha) * Power(1.0 - alpha, n - 1 - i)
  }

  function Weights(alpha: real, n: nat): nat -> real {
    (i: nat) => if i < n then Weight(alpha, n, i) else 0.0
  }

  function WeightedSum(weight: nat -> real, xs: seq<real>): real {
    if xs == [] then 0.0
    else WeightedSum(weight, xs[..|xs| - 1]) + weight(|xs| - 1) * xs[|xs| - 1]
  }

  ghost predicate ScaledBy(k: real, w: nat -> real, v: nat -> real, i: nat) {
    v(i) == k * w(i)
  }

  lemma ScaledTerm(k: real, w: real, v: real, x: real, s: real)
    requires v == k * w
    ensures k * s + v * x == k * (s + w * x)
  {
    assert k * (s + w * x) == k * s + k * (w * x);
    assert (k * w) * x == k * (w * x);
  }

  lemma {:induction false} ScaledSum(k: real, w: nat -> real, v: nat -> real, xs: seq<real>)
    requires forall i: nat | i < |xs| :: ScaledBy(k, w, v, i)
    ensures WeightedSum(v, xs) == k * WeightedSum(w, xs)
  {
    if xs != [] {
      var i := |xs| - 1;
      ScaledSum(k, w, v, xs[..i]);
      assert ScaledBy(k, w, v, i);
      ScaledTerm(k, w(i), v(i), xs[i], WeightedSum(w, xs[..i]));
    }
  }

  /** One more input leaves a share of 1 - alpha to the weights of all inputs before it. */
  lemma WeightStep(alpha: real, n: nat, i: nat)
    requires i < n
    ensures ScaledBy(1.0 - alpha, Weights(alpha, n), Weights(alpha, n + 1), i)
  {
    var first, p := if i == 0 then 1.0 else alpha, Power(1.0 - alpha, n - 1 - i);
    assert Power(1.0 - alpha, n - i) == (1.0 - alpha) * p;
    assert first * ((1.0 - alpha) * p) == (1.0 - alpha) * (first * p);
  }

  /** One more input leaves that share of the sum over all inputs before it. */
  lemma ScaledWeights(alpha: real, xs: seq<real>, k: real, w: nat -> real, v: nat -> real)
    requires k == 1.0 - alpha && w == Weights(alpha, |xs|) && v == Weights(alpha, |xs| + 1)
    ensures WeightedSum(v, xs) == k * WeightedSum(w, xs)
  {
    forall i: nat | i < |xs|
      ensures ScaledBy(k, w, v, i)
    {
      WeightStep(alpha, |xs|, i);
    }
    ScaledSum(k, w, v, xs);
  }

  lemma LastWeight(alpha: real, n: nat)
    ensures Weights(alpha, n + 1)(n) == if n == 0 then 1.0 else alpha
  {
    assert Power(1.0 - alpha, 0) == 1.0;
  }

  lemma {:induction false} EmaIsWeighted(alpha: real, xs: seq<real>, v: nat -> real)
    requires xs != [] && v == Weights(alpha, |xs|)
    ensures EmaOf(alpha, xs) == WeightedSum(v, xs)
  {
    var n := |xs| - 1;
    LastWeight(alpha, n);
    if n > 0 {
      var w := Weights(alpha, n);
      EmaIsWeighted(alpha, xs[..n], w);
      ScaledWeights(alpha, xs[..n], 1.0 - alpha, w, v);
    }
  }

  /** The average of a period in closed form, with its share of 2 / (period + 1). */
  lemma EmaInFull(period: nat, xs: seq<real>)
    requires xs != []
    ensures EmaOf(Alpha(period), xs) == WeightedSum(Weights(2.0 / (period as real + 1.0), |xs|), xs)
  {
    EmaIsWeighted(Alpha(period), xs, Weights(Alpha(period), |xs|));
  }

  class ExponentialMovingAverage {
    const alpha: real
    var value: real
    var hasValue: bool
    ghost var inputs: seq<real>

    ghost predicate Valid()
      reads this
    {
      hasValue == (inputs != []) && value == EmaOf(alpha, inputs)
    }

    constructor (period: nat)
      ensures Valid() && alpha == Alpha(period) && inputs == []
    {
      alpha := 2.0 / (period as real + 1.0);
      value, hasValue := 0.0, false;
      inputs := [];
    }

    method Update(price: real)
      requires Valid()
      modifies this
      ensures Valid() && inputs == old(inputs) + [price]
    {
      assert (inputs + [price])[..|inputs|] == inputs;
      inputs := inputs + [price];
      if !hasValue {
        hasValue := true;
        value := price;
        return;
      }
      value := price * alpha + (1.0 - alpha) * value;
    }
  }

  // ---------- the interleaved price sequences ----------

  /** The closes at positions congruent to slot. */
  function Slot(closes: seq<real>, slot: nat): seq<real> {
    if closes == [] then []
    else
      var n := |closes| - 1;
      if n % CYCLE == slot then Slot(closes[..n], slot) + [closes[n]] else Slot(closes[..n], slot)
  }

  /** A slot has its first entry exactly when the first cycle has reached it. */
  lemma {:induction false} SlotStarted(closes: seq<real>, slot: nat)
    requires slot < CYCLE
    ensures Slot(closes, slot) != [] <==> slot < |closes|
  {
    if closes != [] {
      SlotStarted(closes[..|closes| - 1], slot);
    }
  }

  /** The reading: relative strength smoothed by 1e-5, scaled to a percentage. */
  function Reading(gain: real, loss: real): real
    requires gain >= 0.0 && loss >= 0.0
  {
    var rs := gain / (loss + 0.00001);
    100.0 - 100.0 / (1.0 + rs)
  }

  lemma ReadingBounded(gain: real, loss: real)
    requires gain >= 0.0 && loss >= 0.0
    ensures 0.0 <= Reading(gain, loss) < 100.0
  {
    var rs := gain / (loss + 0.00001);
    assert rs >= 0.0;
    assert 0.0 < 100.0 / (1.0 + rs) <= 100.0;
  }

  /** Entry j of a slot is the close at position 24 j + slot, and the slot holds all of those. */
  lemma {:induction false} SlotElements(closes: seq<real>, slot: nat)
    requires slot < 24
    ensures |Slot(closes, slot)| == (|closes| + 23 - slot) / 24
    ensures forall j | 0 <= j < |Slot(closes, slot)| ::
      24 * j + slot < |closes| && Slot(closes, slot)[j] == closes[24 * j + slot]
  {
    if closes != [] {
      var n := |closes| - 1;
      SlotElements(closes[..n], slot);
      SlotCount(n, slot);
    }
  }

  lemma SlotCount(n: nat, slot: nat)
    requires slot < 24
    ensures (n + 24 - slot) / 24 == (n + 23 - slot) / 24 + (if n % 24 == slot then 1 else 0)
    ensures n % 24 == slot ==> 24 * ((n + 23 - slot) / 24) + slot == n
  {
  }

  /** v is the share of the gains, in percent; above half exactly when gains exceed losses by more than
      the smoothing, and zero without gains. */
  predicate IsShare(v: real, gain: real, loss: real)
    requires gain >= 0.0 && loss >= 0.0
  {
    && v == 100.0 * gain / (gain + loss + 0.00001)
    && (v > 50.0 <==> gain > loss + 0.00001)
    && (gain == 0.0 ==> v == 0.0)
  }

  lemma ReadingQuotient(gain: real, loss: real)
    requires gain >= 0.0 && loss >= 0.0
    ensures Reading(gain, loss) == 100.0 * gain / (gain + loss + 0.00001)
  {
    var base := loss + 0.00001;
    var rs, all := gain / base, gain + base;
    assert rs * base == gain;
    assert (1.0 + rs) * base == all;
    QuotientIs(100.0, 1.0 + rs, 100.0 * base / all);
    assert 100.0 * gain / all + 100.0 * base / all == 100.0;
  }

  lemma QuotientIsShare(v: real, gain: real, loss: real)
    requires gain >= 0.0 && loss >= 0.0 && v == 100.0 * gain / (gain + loss + 0.00001)
    ensures IsShare(v, gain, loss)
  {
    var base := loss + 0.00001;
    var all := gain + base;
    assert v * all == 100.0 * gain;
    assert (v - 50.0) * all == 50.0 * gain - 50.0 * base;
    PositiveProduct(v - 50.0, all);
  }

  lemma PositiveProduct(x: real, y: real)
    requires y > 0.0
    ensures x * y > 0.0 <==> x > 0.0
    ensures x * y == 0.0 <==> x == 0.0
  {
  }

  /** The reading in full. */
  lemma ReadingInFull(gain: real, loss: real)
    requires gain >= 0.0 && loss >= 0.0
    ensures IsShare(Reading(gain, loss), gain, loss)
  {
    ReadingQuotient(gain, loss);
    QuotientIsShare(Reading(gain, loss), gain, loss);
  }

  /** The same of the whole history. */
  lemma RsiInFull(period: nat, closes: seq<real>)
    requires period > 0
    ensures var xs := Slot(closes, |closes| % CYCLE);
      var gain, loss := EmaOf(Alpha(period), UpMoves(xs)), EmaOf(Alpha(period), DownMoves(xs));
      gain >= 0.0 && loss >= 0.0 && IsShare(RsiOf(period, closes), gain, loss)
  {
    var xs := Slot(closes, |closes| % CYCLE);
    AveragesNonNegative(period, xs);
    RsiIsShare(period, closes, EmaOf(Alpha(period), UpMoves(xs)), EmaOf(Alpha(period), DownMoves(xs)));
  }

  lemma RsiIsShare(period: nat, closes: seq<real>, gain: real, loss: real)
    requires period > 0 && gain >= 0.0 && loss >= 0.0
    requires var xs := Slot(closes, |closes| % CYCLE);
      gain == EmaOf(Alpha(period), UpMoves(xs)) && loss == EmaOf(Alpha(period), DownMoves(xs))
    ensures IsShare(RsiOf(period, closes), gain, loss)
  {
    ReadingInFull(gain, loss);
  }

  lemma {:induction false} EmaNonNegative(period: nat, xs: seq<real>)
    requires period > 0 && forall i | 0 <= i < |xs| :: xs[i] >= 0.0
    ensures EmaOf(Alpha(period), xs) >= 0.0
  {
    if |xs| > 1 {
      var rest := EmaOf(Alpha(period), xs[..|xs| - 1]);
      EmaNonNegative(period, xs[..|xs| - 1]);
      Mix(Alpha(period), xs[|xs| - 1], rest, 0.0, xs[|xs| - 1] + rest);
    }
  }

  lemma AveragesNonNegative(period: nat, xs: seq<real>)
    requires period > 0
    ensures EmaOf(Alpha(period), UpMoves(xs)) >= 0.0 && EmaOf(Alpha(period), DownMoves(xs)) >= 0.0
  {
    EmaNonNegative(period, UpMoves(xs));
    EmaNonNegative(period, DownMoves(xs));
  }

  /** The reading as a function of the whole price history: it looks at the slot whose turn is
      next. */
  function RsiOf(period: nat, closes: seq<real>): real
    requires period > 0
  {
    var xs := Slot(closes, |closes| % CYCLE);
    AveragesNonNegative(period, xs);
    Reading(EmaOf(Alpha(period), UpMoves(xs)), EmaOf(Alpha(period), DownMoves(xs)))
  }

  lemma RsiBounded(period: nat, closes: seq<real>)
    requires period > 0
    ensures 0.0 <= RsiOf(period, closes) < 100.0
  {
    var xs := Slot(closes, |closes| % CYCLE);
    AveragesNonNegative(period, xs);
    ReadingBounded(EmaOf(Alpha(period), UpMoves(xs)), EmaOf(Alpha(period), DownMoves(xs)));
  }

  lemma {:induction false} SlotIgnoresTail(closes: seq<real>, k: nat, slot: nat)
    requires k <= |closes| && slot < CYCLE
    requires forall n | k <= n < |closes| :: n % CYCLE != slot
    ensures Slot(closes, slot) == Slot(closes[..k], slot)
  {
    if k < |closes| {
      SlotIgnoresTail(closes[..|closes| - 1], k, slot);
      assert closes[..|closes| - 1][..k] == closes[..k];
    } else {
      assert closes[..k] == closes;
    }
  }

  /** The reading is a cycle old: the latest 23 closes have no influence on it. */
  lemma RsiIsStale(period: nat, closes: seq<real>, recent: seq<real>)
    requires period > 0 && CYCLE <= |closes| == |recent|
    requires closes[..|closes| - 23] == recent[..|closes| - 23]
    ensures RsiOf(period, closes) == RsiOf(period, recent)
  {
    var n := |closes|;
    SlotIgnoresTail(closes, n - 23, n % CYCLE);
    SlotIgnoresTail(recent, n - 23, n % CYCLE);
  }

  lemma SlotAppend(closes: seq<real>, c: real, slot: nat)
    requires slot < CYCLE
    ensures Slot(closes + [c], slot) == if |closes| % CYCLE == slot then Slot(closes, slot) + [c]
      else Slot(closes, slot)
  {
    assert (closes + [c])[..|closes|] == closes;
  }

  class RelativeStrengthIndex {
    const period: nat
    var count: nat
    const lastValue: array<real>
    const averageGain: seq<ExponentialMovingAverage>
    const averageLoss: seq<ExponentialMovingAverage>
    ghost var closes: seq<real>

    ghost predicate Shape() {
      && period > 0
      && lastValue.Length == |averageGain| == |averageLoss| == CYCLE
      && (forall i, j | 0 <= i < j < CYCLE :: averageGain[i] != averageGain[j] && averageLoss[i] != averageLoss[j])
      && (forall i, j | 0 <= i < CYCLE && 0 <= j < CYCLE :: averageGain[i] != averageLoss[j])
    }

    /** Slot i holds the last close and the averages of the closes at positions congruent to i. */
    ghost predicate SlotValid(i: nat, xs: seq<real>)
      requires Shape() && i < CYCLE
      reads lastValue, averageGain[i], averageLoss[i]
    {
      && averageGain[i].Valid() && averageGain[i].alpha == Alpha(period) && averageGain[i].inputs == UpMoves(xs)
      && averageLoss[i].Valid() && averageLoss[i].alpha == Alpha(period) && averageLoss[i].inputs == DownMoves(xs)
      && (xs != [] ==> lastValue[i] == xs[|xs| - 1])
    }

    ghost predicate Valid()
      reads this, lastValue, averageGain, averageLoss
    {
      && Shape()
      && count == |closes|
      && forall i: nat | i < CYCLE :: SlotValid(i, Slot(closes, i))
    }

    constructor (period: nat)
      requires period > 0
      ensures Valid() && this.period == period && closes == []
      ensures fresh(lastValue) && forall i | 0 <= i < CYCLE :: fresh(averageGain[i]) && fresh(averageLoss[i])
    {
      var gains: seq<ExponentialMovingAverage>, losses: seq<ExponentialMovingAverage> := [], [];
      while |gains| < CYCLE
        invariant |gains| == |losses| <= CYCLE
        invariant forall i | 0 <= i < |gains| :: fresh(gains[i]) && fresh(losses[i])
        invariant forall i | 0 <= i < |gains| ::
          gains[i].Valid() && gains[i].alpha == Alpha(period) && gains[i].inputs == []
        invariant forall i | 0 <= i < |gains| ::
          losses[i].Valid() && losses[i].alpha == Alpha(period) && losses[i].inputs == []
        invariant forall i, j | 0 <= i < j < |gains| :: gains[i] != gains[j] && losses[i] != losses[j]
        invariant forall i, j | 0 <= i < |gains| && 0 <= j < |gains| :: gains[i] != losses[j]
      {
        var gain := new ExponentialMovingAverage(period);
        var loss := new ExponentialMovingAverage(period);
        gains, losses := gains + [gain], losses + [loss];
      }
      this.period := period;
      lastValue := new real[CYCLE](_ => 0.0);
      averageGain, averageLoss := gains, losses;
      count := 0;
      closes := [];
    }

    method Update(candle: Candle)
      requires Valid()
      modifies this, lastValue, averageGain, averageLoss
      ensures Valid() && closes == old(closes) + [candle.close]
    {
      var index := count % CYCLE;
      count := count + 1;
      if count <= CYCLE {
        Start(index, candle.close);
      } else {
        Continue(index, candle.close);
      }
    }

    ghost predicate SlotsValid()
      reads this, lastValue, averageGain, averageLoss
    {
      Shape() && forall i: nat | i < CYCLE :: SlotValid(i, Slot(closes, i))
    }

    /** A close of the first cycle is only remembered. */
    method Start(index: nat, close: real)
      requires SlotsValid() && index == |closes| % CYCLE && |closes| < CYCLE
      modifies this`closes, lastValue
      ensures SlotsValid() && closes == old(closes) + [close]
    {
      SlotStarted(closes, index);
      Remember(index, close, Slot(closes, index));
      closes := closes + [close];
      forall i: nat | i < CYCLE
        ensures SlotValid(i, Slot(closes, i))
      {
        SlotAppend(old(closes), close, i);
        assert i == index || old(SlotValid(i, Slot(closes, i)));
      }
    }

    /** The first close of a slot. */
    method Remember(index: nat, close: real, ghost xs: seq<real>)
      requires Shape() && index < CYCLE && SlotValid(index, xs) && xs == []
      modifies lastValue
      ensures SlotValid(index, xs + [close])
      ensures forall i | 0 <= i < CYCLE && i != index :: lastValue[i] == old(lastValue[i])
    {
      MovesOfOne(close);
      lastValue[index] := close;
      assert xs + [close] == [close];
    }

    /** Later closes feed the averages of their slot. */
    method Continue(index: nat, close: real)
      requires SlotsValid() && index == |closes| % CYCLE && CYCLE <= |closes|
      modifies this`closes, lastValue, averageGain[index], averageLoss[index]
      ensures SlotsValid() && closes == old(closes) + [close]
    {
      SlotStarted(closes, index);
      Feed(index, close, Slot(closes, index));
      closes := closes + [close];
      forall i: nat | i < CYCLE
        ensures SlotValid(i, Slot(closes, i))
      {
        SlotAppend(old(closes), close, i);
        assert i == index || old(SlotValid(i, Slot(closes, i)));
      }
    }

    /** One step of a slot that has seen the closes xs. */
    method Feed(index: nat, close: real, ghost xs: seq<real>)
      requires Shape() && index < CYCLE && SlotValid(index, xs) && xs != []
      modifies lastValue, averageGain[index], averageLoss[index]
      ensures SlotValid(index, xs + [close])
      ensures forall i | 0 <= i < CYCLE && i != index :: lastValue[i] == old(lastValue[i])
    {
      MovesAppend(xs, close);
      var gain := close - lastValue[index];
      lastValue[index] := close;
      if gain > 0.0 {
        averageGain[index].Update(gain);
        averageLoss[index].Update(0.0);
      } else if gain < 0.0 {
        averageGain[index].Update(0.0);
        averageLoss[index].Update(-gain);
      } else {
        averageGain[index].Update(0.0);
        averageLoss[index].Update(0.0);
      }
    }

    method Value() returns (v: real)
      requires Valid()
      ensures v == RsiOf(period, closes) && 0.0 <= v < 100.0
    {
      var index := count % CYCLE;
      assert SlotValid(index, Slot(closes, index));
      AveragesNonNegative(period, Slot(closes, index));
      RsiBounded(period, closes);
      var rs := averageGain[index].value / (averageLoss[index].value + 0.00001);
      v := 100.0 - 100.0 / (1.0 + rs);
    }
  }
}
