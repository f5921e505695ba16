/** The high-low range over a ring buffer (wedge/indicator/volatility/range.h). */
module RangeIndicator {
  import opened Common

  /** The last n elements of n zeros followed by the history: what the ring holds. */
  function Window(n: nat, history: seq<real>): (w: seq<real>)
    ensures |w| == n
  {
    (seq(n, _ => 0.0) + history)[|history|..]
  }

  lemma WindowShift(n: nat, history: seq<real>, x: real)
    requires n > 0
    ensures Window(n, history + [x]) == Window(n, history)[1..] + [x]
  {
    var padded := seq(n, _ => 0.0) + history;
    assert seq(n, _ => 0.0) + (history + [x]) == padded + [x];
  }

  ghost predicate IsMax(s: seq<real>, m: real) {
    m in s && forall x | x in s :: x <= m
  }

  ghost predicate IsMin(s: seq<real>, m: real) {
    m in s && forall x | x in s :: m <= x
  }

  function MaxOf(s: seq<real>): (m: real)
    requires s != []
    ensures IsMax(s, m)
  {
    if |s| == 1 then s[0] else
      assert s == [s[0]] + s[1..];
      var rest := MaxOf(s[1..]);
      if s[0] > rest then s[0] else rest
  }

  function MinOf(s: seq<real>): (m: real)
    requires s != []
    ensures IsMin(s, m)
  {
    if |s| == 1 then s[0] else
      assert s == [s[0]] + s[1..];
      var rest := MinOf(s[1..]);
      if s[0] < rest then s[0] else rest
  }

  /** The range of a price history over the last n candles. */
  function RangeOf(n: nat, highs: seq<real>, lows: seq<real>): real
    requires n > 0
  {
    MaxOf(Window(n, highs)) - MinOf(Window(n, lows))
  }

  /** After at least n candles the ring holds exactly the last n of them. */
  lemma FullRange(n: nat, highs: seq<real>, lows: seq<real>)
    requires 0 < n <= |highs| == |lows|
    ensures RangeOf(n, highs, lows) == MaxOf(highs[|highs| - n..]) - MinOf(lows[|lows| - n..])
  {
    assert Window(n, highs) == highs[|highs| - n..];
    assert Window(n, lows) == lows[|lows| - n..];
  }

  /** Before that the zeros the ring starts with still count: with positive prices the lowest low
      is taken to be zero, and the range is the highest price itself. */
  lemma EarlyRange(n: nat, highs: seq<real>, lows: seq<real>)
    requires 0 < |highs| == |lows| < n
    requires forall i | 0 <= i < |lows| :: 0.0 < lows[i] <= highs[i]
    ensures RangeOf(n, highs, lows) == MaxOf(highs)
  {
    var k := n - |highs|;
    var h, l := Window(n, highs), Window(n, lows);
    forall i | 0 <= i < n
      ensures h[i] == if i < k then 0.0 else highs[i - k]
      ensures l[i] == if i < k then 0.0 else lows[i - k]
    {
    }
    var top := MaxOf(highs);
    var at :| 0 <= at < |highs| && highs[at] == top;
    assert h[k + at] == top;
    assert highs[0] in highs;
    assert l[0] == 0.0;
    forall i | 0 <= i < n
      ensures h[i] <= top
    {
      assert i >= k ==> highs[i - k] in highs;
    }
    assert IsMax(h, top) && IsMin(l, 0.0);
  }

  /** A ring buffer: the oldest entry is at position next. */
  ghost predicate Rotates(ring: seq<real>, next: nat, window: seq<real>) {
    next < |ring| && ring[next..] + ring[..next] == window
  }

  lemma RotationMember(ring: seq<real>, next: nat, window: seq<real>, x: real)
    requires Rotates(ring, next, window)
    ensures x in ring <==> x in window
  {
    assert ring == ring[..next] + ring[next..];
  }

  lemma RotateStep(ring: seq<real>, next: nat, window: seq<real>, x: real)
    requires Rotates(ring, next, window)
    ensures Rotates(ring[next := x], if next + 1 == |ring| then 0 else next + 1, window[1..] + [x])
  {
    var r := ring[next := x];
    assert window[1..] == ring[next + 1..] + ring[..next];
    if next + 1 == |ring| {
      assert r[0..] + r[..0] == ring[..next] + [x];
    } else {
      assert r[next + 1..] + r[..next + 1] == ring[next + 1..] + ring[..next] + [x];
    }
  }

  lemma {:induction false} AtLeastOneMultiple(k: nat, n: nat)
    requires k >= 1
    ensures k * n >= n
  {
    if k > 1 {
      AtLeastOneMultiple(k - 1, n);
      assert k * n == (k - 1) * n + n;
    }
  }

  lemma Distributes(a: nat, d: nat, n: nat)
    ensures (a + d) * n == a * n + d * n
  {
  }

  /** Quotient and remainder are determined. */
  lemma RemainderUnique(q: nat, r: nat, q': nat, r': nat, n: nat)
    requires q * n + r == q' * n + r' && r < n && r' < n
    ensures r == r'
  {
    if q > q' {
      Distributes(q', q - q', n);
      AtLeastOneMultiple(q - q', n);
    } else if q < q' {
      Distributes(q, q' - q, n);
      AtLeastOneMultiple(q' - q, n);
    }
  }

  lemma NextIndex(count: nat, n: nat)
    requires n > 0
    ensures (count + 1) % n == if count % n + 1 == n then 0 else count % n + 1
  {
    var q, r := count / n, count % n;
    var q', r' := (count + 1) / n, (count + 1) % n;
    assert count == q * n + r && count + 1 == q' * n + r';
    if r + 1 == n {
      assert (q + 1) * n == q * n + n;
      RemainderUnique(q + 1, 0, q', r', n);
    } else {
      RemainderUnique(q, r + 1, q', r', n);
    }
  }

  class Range {
    var count: nat
    const high: array<real>
    const low: array<real>
    ghost var highs: seq<real>
    ghost var lows: seq<real>

    ghost predicate Valid()
      reads this, high, low
    {
      && high != low
      && 0 < high.Length == low.Length
      && count == |highs| == |lows|
      && Rotates(high[..], count % high.Length, Window(high.Length, highs))
      && Rotates(low[..], count % low.Length, Window(low.Length, lows))
    }

    constructor (period: nat)
      requires period > 0
      ensures Valid() && high.Length == period && highs == [] && lows == []
      ensures fresh(high) && fresh(low)
    {
      var h := new real[period](_ => 0.0);
      var l := new real[period](_ => 0.0);
      high, low := h, l;
      count := 0;
      highs, lows := [], [];
      new;
      assert high[..] == Window(period, []) && low[..] == Window(period, []);
    }

    method Update(candle: Candle)
      requires Valid()
      modifies this, high, low
      ensures Valid()
      ensures highs == old(highs) + [candle.high] && lows == old(lows) + [candle.low]
    {
      var index := count % high.Length;
      RotateStep(high[..], index, Window(high.Length, highs), candle.high);
      RotateStep(low[..], index, Window(low.Length, lows), candle.low);
      WindowShift(high.Length, highs, candle.high);
      WindowShift(low.Length, lows, candle.low);
      NextIndex(count, high.Length);
      count := count + 1;
      high[index] := candle.high;
      low[index] := candle.low;
      highs := highs + [candle.high];
      lows := lows + [candle.low];
      assert high[..] == old(high[..])[index := candle.high];
      assert low[..] == old(low[..])[index := candle.low];
    }

    /** The largest entry of the window of highs minus the smallest entry of the window of lows,
        whatever the rotation of the ring. */
    method Value() returns (v: real)
      requires Valid()
      ensures v == RangeOf(high.Length, highs, lows)
    {
      var top := Apply(high, (x, y) => x > y);
      var bottom := Apply(low, (x, y) => x < y);
      forall x
        ensures x in high[..] <==> x in Window(high.Length, highs)
        ensures x in low[..] <==> x in Window(low.Length, lows)
      {
        RotationMember(high[..], count % high.Length, Window(high.Length, highs), x);
        RotationMember(low[..], count % low.Length, Window(low.Length, lows), x);
      }
      assert IsMax(Window(high.Length, highs), top) && IsMin(Window(low.Length, lows), bottom);
      v := top - bottom;
    }
  }

  /** The extreme element with respect to a comparison; std::min keeps the first argument unless
      the second one compares before it. */
  method Apply(data: array<real>, before: (real, real) -> bool) returns (result: real)
    requires data.Length > 0
    requires forall x, y, z :: before(x, y) && before(y, z) ==> before(x, z)
    requires forall x :: !before(x, x)
    ensures result in data[..]
    ensures forall x | x in data[..] :: !before(x, result)
  {
    result := data[0];
    var i := 1;
    assert data[..1] == [data[0]];
    while i < data.Length
      invariant 1 <= i <= data.Length
      invariant result in data[..i]
      invariant forall k | 0 <= k < i :: !before(data[k], result)
    {
      if before(data[i], result) {
        forall k | 0 <= k < i
          ensures !before(data[k], data[i])
        {
          var x, y, z := data[k], data[i], result;
          assert !before(x, z) && before(y, z);
          assert before(x, y) && before(y, z) ==> before(x, z);
        }
        result := data[i];
      }
      assert data[..i + 1] == data[..i] + [data[i]];
      i := i + 1;
    }
    assert data[..i] == data[..];
  }
}
