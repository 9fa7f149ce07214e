/**
 * The Bollinger band annotation of one price series (Backtest.bollinger_bands).
 *
 * pandas' `rolling(window)` over the close column is modelled index by index:
 * the window ending at sample i holds the closes of samples i-window+1 .. i
 * (the sample itself included). The moving average is computed exactly over
 * `real`; the standard deviation is a floating-point square root and is taken
 * as given, through a function `stdev` from a window's closes to its value.
 * An undefined (NaN) cell is `None`.
 */
module Bollinger {
  import opened Options

  /** Multiplier of the standard deviation in both bands. */
  const Width: real := 2.0

  /** One sample's annotation: the SMA, StdDev, UpperBand and LowerBand columns. */
  datatype Band = Band(sma: real, std: real, upper: real, lower: real)

  function Sum(s: seq<real>): real
  {
    if |s| == 0 then 0.0 else Sum(s[..|s| - 1]) + s[|s| - 1]
  }

  function Mean(s: seq<real>): real
    requires |s| > 0
  {
    Sum(s) / (|s| as real)
  }

  function Square(x: real): real
  {
    x * x
  }

  lemma SquareMonotonic(a: real, b: real)
    requires 0.0 <= a < b
    ensures Square(a) < Square(b)
  {
    PositiveProduct(b - a, b + a);
    assert (b - a) * (b + a) == b * b - a * a;
  }

  lemma PositiveProduct(x: real, y: real)
    requires x > 0.0 && y > 0.0
    ensures x * y > 0.0
  {
  }

  function SquaredDeviations(s: seq<real>, m: real): real
  {
    if |s| == 0 then 0.0
    else SquaredDeviations(s[..|s| - 1], m) + Square(s[|s| - 1] - m)
  }

  /** pandas' default `std` is the sample deviation: divisor n - 1. */
  function SampleVariance(s: seq<real>): real
    requires |s| >= 2
  {
    SquaredDeviations(s, Mean(s)) / ((|s| - 1) as real)
  }

  /** `d` is what a square root computed without rounding would give for the window `s`. */
  ghost predicate IsSampleStdDev(s: seq<real>, d: real)
    requires |s| >= 2
  {
    d >= 0.0 && Square(d) == SampleVariance(s)
  }

  /** The closes that `rolling(window)` sees at index i. */
  function Window(closes: seq<real>, window: nat, i: nat): seq<real>
    requires 1 <= window <= i + 1 <= |closes|
  {
    closes[i + 1 - window .. i + 1]
  }

  /** `rolling(window).mean()` at index i: defined once `window` samples exist. */
  function Sma(closes: seq<real>, window: nat, i: nat): (r: Option<real>)
    requires i < |closes|
    ensures r.Some? <==> 1 <= window <= i + 1
  {
    if 1 <= window <= i + 1 then Some(Mean(Window(closes, window, i))) else None
  }

  /**
   * `rolling(window).std()` at index i. With one degree of freedom removed a
   * one-sample window has no deviation, so a window of 1 gives NaN everywhere.
   */
  function StdDev(closes: seq<real>, window: nat, i: nat, stdev: seq<real> -> real): (r: Option<real>)
    requires i < |closes|
    ensures r.Some? <==> 2 <= window <= i + 1
  {
    if 2 <= window <= i + 1 then Some(stdev(Window(closes, window, i))) else None
  }

  /** The four columns at index i; NaN in either input column makes both bands NaN. */
  function BandAt(closes: seq<real>, window: nat, i: nat, stdev: seq<real> -> real): (r: Option<Band>)
    requires i < |closes|
    ensures r.Some? <==> 2 <= window <= i + 1
    ensures r.Some? ==> Sma(closes, window, i) == Some(r.value.sma)
                        && StdDev(closes, window, i, stdev) == Some(r.value.std)
  {
    match (Sma(closes, window, i), StdDev(closes, window, i, stdev))
    case (Some(m), Some(d)) => Some(Band(m, d, m + Width * d, m - Width * d))
    case _ => None
  }

  /** The annotated series, aligned index for index with the closes. */
  function BollingerBands(closes: seq<real>, window: nat, stdev: seq<real> -> real): seq<Option<Band>>
  {
    seq(|closes|, i requires 0 <= i < |closes| => BandAt(closes, window, i, stdev))
  }

  /**
   * The band at index i is defined exactly from index window-1 on (and not at
   * all for a window below 2); there its average is the mean of the window's
   * closes and the bands lie Width deviations either side of it.
   */
  lemma BandShape(closes: seq<real>, window: nat, i: nat, stdev: seq<real> -> real)
    requires i < |closes|
    ensures |BollingerBands(closes, window, stdev)| == |closes|
    ensures BollingerBands(closes, window, stdev)[i].Some? <==> 2 <= window && i >= window - 1
    ensures BollingerBands(closes, window, stdev)[i].Some? ==>
      var b := BollingerBands(closes, window, stdev)[i].value;
      var w := closes[i + 1 - window .. i + 1];
      && b.sma == Sum(w) / (window as real)
      && b.std == stdev(w)
      && b.upper == b.sma + 2.0 * b.std
      && b.lower == b.sma - 2.0 * b.std
  {
  }

  /** A series shorter than the window has no defined band anywhere. */
  lemma ShortSeriesUndefined(closes: seq<real>, window: nat, stdev: seq<real> -> real)
    requires |closes| < window
    ensures forall i :: 0 <= i < |closes| ==> BollingerBands(closes, window, stdev)[i] == None
  {
  }

  /** With a non-negative deviation the average lies between the two bands. */
  lemma BandsOrdered(closes: seq<real>, window: nat, i: nat, stdev: seq<real> -> real)
    requires i < |closes| && 2 <= window <= i + 1
    requires stdev(Window(closes, window, i)) >= 0.0
    ensures var b := BollingerBands(closes, window, stdev)[i].value;
            b.lower <= b.sma <= b.upper && b.upper - b.lower == 4.0 * b.std
  {
  }

  lemma {:induction false} SumBounds(s: seq<real>, lo: real, hi: real)
    requires forall k :: 0 <= k < |s| ==> lo <= s[k] <= hi
    ensures (|s| as real) * lo <= Sum(s) <= (|s| as real) * hi
  {
    if |s| > 0 {
      SumBounds(s[..|s| - 1], lo, hi);
    }
  }

  /** The moving average never leaves the range of the closes it averages. */
  lemma MeanBounds(s: seq<real>, lo: real, hi: real)
    requires |s| > 0
    requires forall k :: 0 <= k < |s| ==> lo <= s[k] <= hi
    ensures lo <= Mean(s) <= hi
  {
    SumBounds(s, lo, hi);
    var n := |s| as real;
    assert n * lo <= Sum(s) <= n * hi;
    assert Sum(s) / n >= lo by {
      assert Sum(s) / n * n == Sum(s);
    }
    assert Sum(s) / n <= hi by {
      assert Sum(s) / n * n == Sum(s);
    }
  }

  lemma {:induction false} FlatSquaredDeviations(s: seq<real>, c: real)
    requires forall k :: 0 <= k < |s| ==> s[k] == c
    ensures SquaredDeviations(s, c) == 0.0
  {
    if |s| > 0 {
      FlatSquaredDeviations(s[..|s| - 1], c);
    }
  }

  /** A window of equal closes has that close as its mean and no variance. */
  lemma FlatWindow(s: seq<real>, c: real)
    requires |s| >= 2
    requires forall k :: 0 <= k < |s| ==> s[k] == c
    ensures Mean(s) == c && SampleVariance(s) == 0.0
  {
    MeanBounds(s, c, c);
    FlatSquaredDeviations(s, c);
  }

  /**
   * Zero variance: when the window's closes are all equal and `stdev` is the
   * window's sample deviation, both bands collapse onto the average.
   */
  lemma FlatWindowCollapses(closes: seq<real>, window: nat, i: nat, stdev: seq<real> -> real, c: real)
    requires i < |closes| && 2 <= window <= i + 1
    requires forall k :: i + 1 - window <= k <= i ==> closes[k] == c
    requires IsSampleStdDev(Window(closes, window, i), stdev(Window(closes, window, i)))
    ensures BollingerBands(closes, window, stdev)[i] == Some(Band(c, 0.0, c, c))
  {
    var w := Window(closes, window, i);
    FlatWindow(w, c);
    var d := stdev(w);
    if d > 0.0 {
      SquareMonotonic(0.0, d);
    }
  }
}
