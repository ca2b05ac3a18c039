/** Real-number helpers shared by the scoring, routing and aggregation modules:
    numpy's clip, Python's round(x, ndigits), and the SQL SUM/AVG aggregates.
    Floating point is modelled by the reals. */
module Numeric {
  import opened Wrappers

  /** A value in the closed unit interval, as classifier probabilities are. */
  type Probability = r: real | 0.0 <= r <= 1.0

  function Min(a: real, b: real): real { if a <= b then a else b }
  function Max(a: real, b: real): real { if a >= b then a else b }

  /** np.clip(x, lo, hi), which numpy computes as minimum(maximum(x, lo), hi). */
  function Clip(x: real, lo: real, hi: real): (r: real)
    ensures r <= hi
    ensures lo <= hi ==> lo <= r
    ensures lo <= x <= hi ==> r == x
    ensures x < lo && lo <= hi ==> r == lo
    ensures x > hi ==> r == hi
  {
    Min(Max(x, lo), hi)
  }

  /** Clip is monotone: a larger input never gives a smaller output. */
  lemma ClipMonotone(x: real, y: real, lo: real, hi: real)
    requires x <= y
    ensures Clip(x, lo, hi) <= Clip(y, lo, hi)
  {
  }

  /** Rounds an integer-plus-fraction to the nearest integer, ties to the even one. */
  function RoundHalfEven(y: real): (n: int)
    ensures -0.5 <= n as real - y <= 0.5
    ensures y.Floor <= n <= y.Floor + 1
  {
    var f := y.Floor;
    var frac := y - f as real;
    if frac < 0.5 then f
    else if frac > 0.5 then f + 1
    else if f % 2 == 0 then f
    else f + 1
  }

  /** x scaled by 'scale' and rounded half-to-even to an integer. */
  function ScaledRound(x: real, scale: nat): int
  {
    RoundHalfEven(x * scale as real)
  }

  /** Python's round(x, ndigits) on a float, with scale == 10^ndigits: the multiple
      of 1/scale nearest to x, ties going to the even multiple. */
  function RoundTo(x: real, scale: nat): (r: real)
    requires scale >= 1
    ensures r * scale as real == ScaledRound(x, scale) as real
    ensures -0.5 / scale as real <= r - x <= 0.5 / scale as real
  {
    var s := scale as real;
    var n := ScaledRound(x, scale);
    assert n as real / s * s == n as real;
    DivideBounds(n as real - x * s, s);
    assert n as real / s - x == (n as real - x * s) / s;
    n as real / s
  }

  /** Dividing the bounds -0.5 <= d <= 0.5 by a positive scale. */
  lemma DivideBounds(d: real, s: real)
    requires s > 0.0 && -0.5 <= d <= 0.5
    ensures -0.5 / s <= d / s <= 0.5 / s
  {
    assert d / s - (-0.5) / s == (d + 0.5) / s;
    assert 0.5 / s - d / s == (0.5 - d) / s;
  }

  /** round(x, 4), as applied to scores. */
  function Round4(x: real): real { RoundTo(x, 10000) }

  /** round(x, 3), as applied to latencies. */
  function Round3(x: real): real { RoundTo(x, 1000) }

  /** Rounding keeps a value inside [0, 1]: a rounded probability is still a probability. */
  lemma RoundToUnit(x: real, scale: nat)
    requires scale >= 1 && 0.0 <= x <= 1.0
    ensures 0.0 <= RoundTo(x, scale) <= 1.0
  {
    var s := scale as real;
    var y := x * s;
    assert s - y == (1.0 - x) * s;
    assert 0.0 <= (1.0 - x) * s;
    assert 0.0 <= y <= s;
    var n := ScaledRound(x, scale);
    assert 0 <= y.Floor <= scale;
    if y.Floor == scale {
      assert y == s;
      assert n == scale;
    }
    assert 0 <= n <= scale;
    assert RoundTo(x, scale) * s == n as real;
    assert RoundTo(x, scale) == n as real / s;
    assert s / s - n as real / s == (s - n as real) / s;
  }

  /** Rounding a non-negative value gives a non-negative value (rounded latencies). */
  lemma RoundToNonNegative(x: real, scale: nat)
    requires scale >= 1 && 0.0 <= x
    ensures 0.0 <= RoundTo(x, scale)
  {
    var s := scale as real;
    assert 0.0 <= x * s;
    assert 0 <= ScaledRound(x, scale);
    assert RoundTo(x, scale) * s >= 0.0;
  }

  /** SQL SUM over a column, 0 for no rows. */
  function Sum(xs: seq<real>): real
  {
    if xs == [] then 0.0 else xs[0] + Sum(xs[1..])
  }

  /** SQL AVG over a column: NULL (None) when there are no rows, else sum / count. */
  function Mean(xs: seq<real>): (m: Option<real>)
    ensures m.None? <==> xs == []
    ensures m.Some? ==> m.value * |xs| as real == Sum(xs)
  {
    if xs == [] then None else Some(Sum(xs) / |xs| as real)
  }

  /** Appending a row adds its value to the column sum. */
  lemma {:induction false} SumAppend(xs: seq<real>, x: real)
    ensures Sum(xs + [x]) == Sum(xs) + x
  {
    if xs == [] {
      assert xs + [x] == [x];
    } else {
      assert (xs + [x])[1..] == xs[1..] + [x];
      SumAppend(xs[1..], x);
    }
  }

  /** A column of values in [0, 1] sums to a value in [0, |xs|]. */
  lemma {:induction false} SumUnitBounds(xs: seq<real>)
    requires forall i :: 0 <= i < |xs| ==> 0.0 <= xs[i] <= 1.0
    ensures 0.0 <= Sum(xs) <= |xs| as real
  {
    if xs != [] {
      assert forall i :: 0 <= i < |xs[1..]| ==> xs[1..][i] == xs[i + 1];
      SumUnitBounds(xs[1..]);
    }
  }

  /** A column of non-negative values has a non-negative sum. */
  lemma {:induction false} SumNonNegative(xs: seq<real>)
    requires forall i :: 0 <= i < |xs| ==> 0.0 <= xs[i]
    ensures 0.0 <= Sum(xs)
  {
    if xs != [] {
      assert forall i :: 0 <= i < |xs[1..]| ==> xs[1..][i] == xs[i + 1];
      SumNonNegative(xs[1..]);
    }
  }

  /** The average of values in [0, 1] lies in [0, 1]. */
  lemma MeanUnit(xs: seq<real>)
    requires xs != []
    requires forall i :: 0 <= i < |xs| ==> 0.0 <= xs[i] <= 1.0
    ensures 0.0 <= Mean(xs).value <= 1.0
  {
    SumUnitBounds(xs);
    var n := |xs| as real;
    assert Sum(xs) / n <= n / n;
  }
}
