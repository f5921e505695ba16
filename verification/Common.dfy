/** The shared vocabulary of both simulators: sides, statuses and candles.
    Prices and amounts are exact reals. */
module Common {

  datatype Option<+T> = None | Some(value: T)

  datatype OrderSide = Buy | Sell

  datatype OrderStatus = New | PendingNew | PartiallyFilled | Filled | Canceled

  /** The price part of a candle; times and volumes play no role in either simulator. */
  datatype Candle = Candle(open: real, close: real, high: real, low: real)

  /** What a data source promises of a candle. */
  predicate Sound(c: Candle) {
    0.0 < c.low <= c.close <= c.high && c.low <= c.open <= c.high
  }
}

/** Arithmetic used by several modules: the rise of a move, finite sums of reals, a counting bound. */
module Numbers {

  /** The upward part of a price move; the downward part is the rise of the reversed move. */
  function Rise(from: real, to: real): real {
    if to > from then to - from else 0.0
  }

  /** The gains of a price sequence, and its losses. */
  function UpMoves(xs: seq<real>): (m: seq<real>)
    ensures |m| == if xs == [] then 0 else |xs| - 1
  {
    if xs == [] then [] else seq(|xs| - 1, i requires 0 <= i < |xs| - 1 => Rise(xs[i], xs[i + 1]))
  }

  function DownMoves(xs: seq<real>): (m: seq<real>)
    ensures |m| == if xs == [] then 0 else |xs| - 1
  {
    if xs == [] then [] else seq(|xs| - 1, i requires 0 <= i < |xs| - 1 => Rise(xs[i + 1], xs[i]))
  }

  /** A move is a gain or a loss, or neither, and counts in full. */
  lemma MovesElement(xs: seq<real>, i: nat)
    requires i + 1 < |xs|
    ensures UpMoves(xs)[i] == if xs[i + 1] > xs[i] then xs[i + 1] - xs[i] else 0.0
    ensures DownMoves(xs)[i] == if xs[i] > xs[i + 1] then xs[i] - xs[i + 1] else 0.0
    ensures UpMoves(xs)[i] == 0.0 || DownMoves(xs)[i] == 0.0
  {
  }

  lemma MovesAppend(xs: seq<real>, price: real)
    requires xs != []
    ensures UpMoves(xs + [price]) == UpMoves(xs) + [Rise(xs[|xs| - 1], price)]
    ensures DownMoves(xs + [price]) == DownMoves(xs) + [Rise(price, xs[|xs| - 1])]
  {
  }

  lemma MovesOfOne(price: real)
    ensures UpMoves([]) == UpMoves([price]) == DownMoves([]) == DownMoves([price]) == []
  {
  }

  lemma MovesDropFirst(xs: seq<real>)
    requires |xs| > 1
    ensures UpMoves(xs[1..]) == UpMoves(xs)[1..] && DownMoves(xs[1..]) == DownMoves(xs)[1..]
  {
  }

  lemma ProductNonNegative(a: real, b: real)
    requires a >= 0.0 && b >= 0.0
    ensures a * b >= 0.0
  {
  }

  lemma QuotientIs(a: real, b: real, q: real)
    requires b != 0.0 && q * b == a
    ensures a / b == q
  {
  }

  ghost function Sum(n: nat, f: nat -> real): real {
    if n == 0 then 0.0 else Sum(n - 1, f) + f(n - 1)
  }

  lemma {:induction false} SumAgree(n: nat, f: nat -> real, g: nat -> real)
    requires forall i: nat | i < n :: f(i) == g(i)
    ensures Sum(n, f) == Sum(n, g)
  {
    if n > 0 {
      SumAgree(n - 1, f, g);
    }
  }

  lemma {:induction false} SumZero(n: nat, f: nat -> real)
    requires forall i: nat | i < n :: f(i) == 0.0
    ensures Sum(n, f) == 0.0
  {
    if n > 0 {
      SumZero(n - 1, f);
    }
  }

  /** Changing one term changes the sum by exactly that change. */
  lemma {:induction false} SumBump(n: nat, f: nat -> real, g: nat -> real, k: nat)
    requires k < n
    requires forall i: nat | i < n && i != k :: f(i) == g(i)
    ensures Sum(n, g) == Sum(n, f) + g(k) - f(k)
  {
    if k == n - 1 {
      SumAgree(n - 1, f, g);
    } else {
      SumBump(n - 1, f, g, k);
    }
  }

  ghost predicate Distinct(q: seq<nat>) {
    forall i, j :: 0 <= i < j < |q| ==> q[i] != q[j]
  }

  /** A sequence of distinct numbers below n has at most n elements. */
  lemma {:induction false} DistinctBound(q: seq<nat>, n: nat)
    requires Distinct(q)
    requires forall i :: 0 <= i < |q| ==> q[i] < n
    ensures |q| <= n
  {
    if q != [] {
      assert q[0] < n;
      if k :| 0 <= k < |q| && q[k] == n - 1 {
        DistinctBound(q[..k] + q[k + 1..], n - 1);
      } else {
        DistinctBound(q, n - 1);
      }
    }
  }
}
