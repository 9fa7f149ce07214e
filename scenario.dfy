/**
 * A worked run: one token "X", closes 10, 10, 10, 4, 4, 20 on successive
 * dates, a window of 3 and an initial capital of 100000. Because the window
 * at a sample includes that sample, the only band the closes reach is the
 * collapsed band over 10, 10, 10 at index 2, where the close equals the
 * upper band: a SELL with nothing held, recorded with a return of 0.
 */
module Scenario {
  import opened Options
  import opened Bollinger
  import opened Ledger

  function ExampleCloses(): seq<real>
  {
    [10.0, 10.0, 10.0, 4.0, 4.0, 20.0]
  }

  function Example(dates: seq<string>): Instrument
    requires |dates| == 6
  {
    Instrument("X", seq(6, i requires 0 <= i < 6 => Sample(dates[i], ExampleCloses()[i])))
  }

  /** The sample deviation of x has x's variance as its square, so it exceeds r when r*r is below that variance. */
  lemma DeviationAbove(w: seq<real>, d: real, r: real)
    requires |w| >= 2 && IsSampleStdDev(w, d) && r >= 0.0 && Square(r) < SampleVariance(w)
    ensures d > r
  {
    if d <= r {
      if d < r {
        SquareMonotonic(d, r);
      }
    }
  }

  /** Sum and squared deviations of a three-close window, written out. */
  lemma ThreeCloses(x: real, y: real, z: real, m: real)
    ensures Sum([x, y, z]) == x + y + z
    ensures SquaredDeviations([x, y, z], m) == Square(x - m) + Square(y - m) + Square(z - m)
  {
    var s := [x, y, z];
    assert s[..2] == [x, y];
    assert [x, y][..1] == [x];
    assert [x][..0] == [];
    assert Sum([x]) == x;
    assert Sum([x, y]) == x + y;
    assert SquaredDeviations([x], m) == Square(x - m);
    assert SquaredDeviations([x, y], m) == Square(x - m) + Square(y - m);
  }

  lemma WindowStatistics()
    ensures Mean([10.0, 10.0, 4.0]) == 8.0 && SampleVariance([10.0, 10.0, 4.0]) == 12.0
    ensures Mean([10.0, 4.0, 4.0]) == 6.0 && SampleVariance([10.0, 4.0, 4.0]) == 12.0
    ensures Mean([4.0, 4.0, 20.0]) == 28.0 / 3.0 && SampleVariance([4.0, 4.0, 20.0]) == 256.0 / 3.0
  {
    ThreeCloses(10.0, 10.0, 4.0, 8.0);
    ThreeCloses(10.0, 4.0, 4.0, 6.0);
    ThreeCloses(4.0, 4.0, 20.0, 28.0 / 3.0);
  }

  ghost predicate TrueDeviations(stdev: seq<real> -> real)
  {
    && IsSampleStdDev([10.0, 10.0, 10.0], stdev([10.0, 10.0, 10.0]))
    && IsSampleStdDev([10.0, 10.0, 4.0], stdev([10.0, 10.0, 4.0]))
    && IsSampleStdDev([10.0, 4.0, 4.0], stdev([10.0, 4.0, 4.0]))
    && IsSampleStdDev([4.0, 4.0, 20.0], stdev([4.0, 4.0, 20.0]))
  }

  /** At index 2 the band over 10, 10, 10 collapses to 10 and the close 10 reaches the upper band. */
  lemma FlatBandSells(stdev: seq<real> -> real)
    requires TrueDeviations(stdev)
    ensures BollingerBands(ExampleCloses(), 3, stdev)[2] == Some(Band(10.0, 0.0, 10.0, 10.0))
    ensures Signal(10.0, BollingerBands(ExampleCloses(), 3, stdev)[2]) == Some(Sell)
  {
    var closes := ExampleCloses();
    assert closes[0..3] == [10.0, 10.0, 10.0];
    FlatWindowCollapses(closes, 3, 2, stdev, 10.0);
  }

  /** At indices 3, 4 and 5 the deviation is wide enough that the close stays inside the bands. */
  lemma WideBandsHold(stdev: seq<real> -> real, i: nat)
    requires TrueDeviations(stdev) && 3 <= i < 6
    ensures Signal(ExampleCloses()[i], BollingerBands(ExampleCloses(), 3, stdev)[i]) == None
  {
    var closes := ExampleCloses();
    WindowStatistics();
    var w := closes[i - 2 .. i + 1];
    if i == 3 {
      assert w == [10.0, 10.0, 4.0];
      DeviationAbove(w, stdev(w), 3.0);
    } else if i == 4 {
      assert w == [10.0, 4.0, 4.0];
      DeviationAbove(w, stdev(w), 3.0);
    } else {
      assert w == [4.0, 4.0, 20.0];
      DeviationAbove(w, stdev(w), 9.0);
    }
  }

  /** The example's decision stream: the SELL at index 2 and nothing else. */
  lemma ExampleDecisions(dates: seq<string>, stdev: seq<real> -> real)
    requires |dates| == 6 && TrueDeviations(stdev)
    ensures InstrumentDecisions(Example(dates), 3, stdev) == [Decision("X", dates[2], Sell, 10.0)]
  {
    var inst := Example(dates);
    var samples := inst.samples;
    var bands := BollingerBands(Closes(samples), 3, stdev);
    assert Closes(samples) == ExampleCloses();
    FlatBandSells(stdev);
    WideBandsHold(stdev, 3);
    WideBandsHold(stdev, 4);
    WideBandsHold(stdev, 5);
    var d := Decision("X", dates[2], Sell, 10.0);
    assert DecisionAt("X", samples[0], bands[0]) == [];
    assert DecisionAt("X", samples[1], bands[1]) == [];
    assert DecisionAt("X", samples[2], bands[2]) == [d];
    assert DecisionAt("X", samples[3], bands[3]) == [];
    assert DecisionAt("X", samples[4], bands[4]) == [];
    assert DecisionAt("X", samples[5], bands[5]) == [];
    assert SeriesDecisions("X", samples, bands, 1) == [];
    assert SeriesDecisions("X", samples, bands, 2) == [];
    assert SeriesDecisions("X", samples, bands, 3) == [d];
    assert SeriesDecisions("X", samples, bands, 4) == [d];
    assert SeriesDecisions("X", samples, bands, 5) == [d];
    assert SeriesDecisions("X", samples, bands, 6) == [d];
  }

  /**
   * What the run does with the example: exactly one record, a SELL at 10 on
   * the third date with nothing held, so the cash stays 100000 and the
   * recorded return is 0.
   */
  lemma WorkedExample(dates: seq<string>, stdev: seq<real> -> real)
    requires |dates| == 6 && TrueDeviations(stdev)
    ensures InstrumentDecisions(Example(dates), 3, stdev) == [Decision("X", dates[2], Sell, 10.0)]
    ensures PositivePrices(InstrumentDecisions(Example(dates), 3, stdev))
    ensures Replay(Account(100000.0, map[]), InstrumentDecisions(Example(dates), 3, stdev))
            == Account(100000.0, map[])
    ensures Trades(Account(100000.0, map[]), InstrumentDecisions(Example(dates), 3, stdev), 100000.0)
            == [Trade("X", dates[2], Sell, 10.0, 0.0)]
  {
    ExampleDecisions(dates, stdev);
    var d := Decision("X", dates[2], Sell, 10.0);
    var a := Account(100000.0, map[]);
    assert [d][..0] == [];
    assert Replay(a, [d]) == a;
  }
}
