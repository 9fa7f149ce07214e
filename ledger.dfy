/**
 * The backtest as a fold: the account state (cash and per-token holdings),
 * one trade's effect on it (Backtest.execute_trade), the trade record it
 * appends, the decision rule of Backtest.run, and the decision stream a run
 * replays over the account.
 */
module Ledger {
  import opened Options
  import opened Bollinger

  /** Cash committed by every BUY. */
  const Notional: real := 100.0
  /** A BUY needs the close below this fraction of the lower band. */
  const BuyFactor: real := 0.97

  datatype Side = Buy | Sell

  /** One row of a price frame: its (already formatted) date and its close. */
  datatype Sample = Sample(date: string, close: real)

  /** One entry of the input mapping: a token and its price series, oldest first. */
  datatype Instrument = Instrument(token: string, samples: seq<Sample>)

  /** What the decision rule asks `execute_trade` to do. */
  datatype Decision = Decision(token: string, date: string, side: Side, price: real)

  /** One ledger row: token, date, trade_type, price, profit_percentage. */
  datatype Trade = Trade(token: string, date: string, side: Side, price: real, profitPercentage: real)

  /** Cash (`capital`) and holdings (`token_balance`). */
  datatype Account = Account(capital: real, balance: map<string, real>)

  /** `token_balance.get(token, 0)`. */
  function Holding(a: Account, token: string): real
  {
    if token in a.balance then a.balance[token] else 0.0
  }

  ghost predicate NonNegative(a: Account)
  {
    forall t :: t in a.balance ==> a.balance[t] >= 0.0
  }

  /**
   * The account after one trade. A BUY always spends the notional, whatever
   * the cash, and adds notional/price units; a SELL liquidates the whole
   * position, and changes nothing when the token holds nothing.
   */
  function Apply(a: Account, token: string, side: Side, price: real): (r: Account)
    requires price > 0.0
    ensures side == Buy ==>
      && r.capital == a.capital - Notional
      && token in r.balance
      && Holding(r, token) == Holding(a, token) + Notional / price
      && Holding(r, token) > Holding(a, token)
    ensures side == Sell && Holding(a, token) > 0.0 ==>
      && r.capital == a.capital + Holding(a, token) * price
      && token in r.balance
      && Holding(r, token) == 0.0
    ensures side == Sell && Holding(a, token) <= 0.0 ==> r == a
    ensures r.balance.Keys == a.balance.Keys + (if side == Buy then {token} else {})
    ensures forall t :: t != token && t in a.balance ==> r.balance[t] == a.balance[t]
  {
    match side
    case Buy =>
      Account(a.capital - Notional, a.balance[token := Holding(a, token) + Notional / price])
    case Sell =>
      if token in a.balance && a.balance[token] > 0.0 then
        Account(a.capital + a.balance[token] * price, a.balance[token := 0.0])
      else
        a
  }

  /** With positive prices no holding ever becomes negative. */
  lemma ApplyKeepsNonNegative(a: Account, token: string, side: Side, price: real)
    requires price > 0.0 && NonNegative(a)
    ensures NonNegative(Apply(a, token, side, price))
  {
    var r := Apply(a, token, side, price);
    forall t | t in r.balance
      ensures r.balance[t] >= 0.0
    {
      if t == token && side == Buy {
        assert Notional / price > 0.0;
      }
    }
  }

  /** Cumulative return of the cash against the initial capital, in percent. */
  function ProfitPercentage(capital: real, initialCapital: real): real
    requires initialCapital != 0.0
  {
    (capital - initialCapital) / initialCapital * 100.0
  }

  ghost predicate PositivePrices(ds: seq<Decision>)
  {
    forall j :: 0 <= j < |ds| ==> ds[j].price > 0.0
  }

  /** The account after applying the decisions in order. */
  function Replay(a: Account, ds: seq<Decision>): Account
    requires PositivePrices(ds)
  {
    if |ds| == 0 then a
    else
      var d := ds[|ds| - 1];
      Apply(Replay(a, ds[..|ds| - 1]), d.token, d.side, d.price)
  }

  /** The records appended while replaying: each carries the return on the cash just after it. */
  function Trades(a: Account, ds: seq<Decision>, initialCapital: real): seq<Trade>
    requires PositivePrices(ds) && initialCapital != 0.0
  {
    if |ds| == 0 then []
    else
      var d := ds[|ds| - 1];
      Trades(a, ds[..|ds| - 1], initialCapital)
        + [Trade(d.token, d.date, d.side, d.price, ProfitPercentage(Replay(a, ds).capital, initialCapital))]
  }

  lemma AppendAssociative<T>(a: seq<T>, b: seq<T>, c: seq<T>)
    ensures (a + b) + c == a + (b + c)
  {
  }

  /** One more decision: one more state transition and exactly one more record. */
  lemma ReplayExtend(a: Account, ds: seq<Decision>, d: Decision, initialCapital: real)
    requires PositivePrices(ds) && d.price > 0.0 && initialCapital != 0.0
    ensures PositivePrices(ds + [d])
    ensures Replay(a, ds + [d]) == Apply(Replay(a, ds), d.token, d.side, d.price)
    ensures Trades(a, ds + [d], initialCapital) == Trades(a, ds, initialCapital)
      + [Trade(d.token, d.date, d.side, d.price, ProfitPercentage(Replay(a, ds + [d]).capital, initialCapital))]
  {
    assert (ds + [d])[..|ds|] == ds;
  }

  /** Holdings stay non-negative over any run of trades. */
  lemma {:induction false} ReplayKeepsNonNegative(a: Account, ds: seq<Decision>)
    requires PositivePrices(ds) && NonNegative(a)
    ensures NonNegative(Replay(a, ds))
  {
    if |ds| > 0 {
      var d := ds[|ds| - 1];
      ReplayKeepsNonNegative(a, ds[..|ds| - 1]);
      ApplyKeepsNonNegative(Replay(a, ds[..|ds| - 1]), d.token, d.side, d.price);
    }
  }

  /** The ledger has exactly one record per decision. */
  lemma {:induction false} TradesLength(a: Account, ds: seq<Decision>, initialCapital: real)
    requires PositivePrices(ds) && initialCapital != 0.0
    ensures |Trades(a, ds, initialCapital)| == |ds|
  {
    if |ds| > 0 {
      TradesLength(a, ds[..|ds| - 1], initialCapital);
    }
  }

  /**
   * Record j of the ledger is decision j's token, date, side and price, with
   * the return of the cash as it stands just after decision j: the returns
   * can be recomputed from the cash trajectory alone.
   */
  lemma {:induction false} TradeAt(a: Account, ds: seq<Decision>, initialCapital: real, j: nat)
    requires PositivePrices(ds) && initialCapital != 0.0 && j < |ds|
    ensures |Trades(a, ds, initialCapital)| == |ds|
    ensures Trades(a, ds, initialCapital)[j]
      == Trade(ds[j].token, ds[j].date, ds[j].side, ds[j].price,
               ProfitPercentage(Replay(a, ds[..j + 1]).capital, initialCapital))
  {
    var n := |ds| - 1;
    TradesLength(a, ds, initialCapital);
    TradesLength(a, ds[..n], initialCapital);
    if j < n {
      TradeAt(a, ds[..n], initialCapital, j);
      assert ds[..n][..j + 1] == ds[..j + 1];
    } else {
      assert ds[..j + 1] == ds;
    }
  }

  /** Replaying a concatenation is replaying its parts one after the other. */
  lemma {:induction false} ReplayConcat(a: Account, xs: seq<Decision>, ys: seq<Decision>, initialCapital: real)
    requires PositivePrices(xs) && PositivePrices(ys) && initialCapital != 0.0
    ensures PositivePrices(xs + ys)
    ensures Replay(a, xs + ys) == Replay(Replay(a, xs), ys)
    ensures Trades(a, xs + ys, initialCapital)
      == Trades(a, xs, initialCapital) + Trades(Replay(a, xs), ys, initialCapital)
  {
    if |ys| == 0 {
      assert xs + ys == xs;
    } else {
      var n := |ys| - 1;
      var d := ys[n];
      assert ys == ys[..n] + [d];
      assert xs + ys == (xs + ys[..n]) + [d];
      ReplayConcat(a, xs, ys[..n], initialCapital);
      ReplayExtend(a, xs + ys[..n], d, initialCapital);
      ReplayExtend(Replay(a, xs), ys[..n], d, initialCapital);
      var tx, ti := Trades(a, xs, initialCapital), Trades(Replay(a, xs), ys[..n], initialCapital);
      var rec := Trade(d.token, d.date, d.side, d.price, ProfitPercentage(Replay(a, xs + ys).capital, initialCapital));
      assert (tx + ti) + [rec] == tx + (ti + [rec]);
    }
  }

  /** Holdings of a token no decision names are never touched. */
  lemma {:induction false} ReplayFrame(a: Account, ds: seq<Decision>, t: string)
    requires PositivePrices(ds)
    requires forall j :: 0 <= j < |ds| ==> ds[j].token != t
    ensures Holding(Replay(a, ds), t) == Holding(a, t)
  {
    if |ds| > 0 {
      ReplayFrame(a, ds[..|ds| - 1], t);
    }
  }

  /**
   * The decision rule for one sample: BUY below 97% of the lower band,
   * otherwise SELL at or above the upper band. An undefined band compares
   * false both times and gives no decision.
   */
  function Signal(close: real, band: Option<Band>): Option<Side>
  {
    match band
    case None => None
    case Some(b) =>
      if close < b.lower * BuyFactor then Some(Buy)
      else if close >= b.upper then Some(Sell)
      else None
  }

  /**
   * Where a decision falls relative to the band: a positive close is bought
   * only strictly below both the lower band and the average, and sold only
   * at or above the average (for a non-negative deviation).
   */
  lemma SignalAgainstBand(close: real, b: Band)
    requires close > 0.0 && b.std >= 0.0
    requires b.upper == b.sma + 2.0 * b.std && b.lower == b.sma - 2.0 * b.std
    ensures Signal(close, Some(b)) == Some(Buy) ==> close < b.lower && close < b.sma
    ensures Signal(close, Some(b)) == Some(Sell) ==> close >= b.upper >= b.sma
    ensures close >= b.upper ==> Signal(close, Some(b)) == Some(Sell)
  {
    if close < b.lower * BuyFactor {
      assert b.lower > 0.0;
    }
  }

  /** The decision sample i of a series gives rise to, if any. */
  function DecisionAt(token: string, s: Sample, band: Option<Band>): seq<Decision>
  {
    match Signal(s.close, band)
    case None => []
    case Some(side) => [Decision(token, s.date, side, s.close)]
  }

  /** Decisions from the first n samples of one series, in sample order. */
  function SeriesDecisions(token: string, samples: seq<Sample>, bands: seq<Option<Band>>, n: nat): seq<Decision>
    requires n <= |samples| == |bands|
  {
    if n == 0 then []
    else SeriesDecisions(token, samples, bands, n - 1) + DecisionAt(token, samples[n - 1], bands[n - 1])
  }

  /** The close column of a series. */
  function Closes(samples: seq<Sample>): seq<real>
  {
    seq(|samples|, i requires 0 <= i < |samples| => samples[i].close)
  }

  /** One token's decisions: its series annotated with bands, walked oldest first. */
  function InstrumentDecisions(inst: Instrument, window: nat, stdev: seq<real> -> real): seq<Decision>
  {
    var bands := BollingerBands(Closes(inst.samples), window, stdev);
    SeriesDecisions(inst.token, inst.samples, bands, |inst.samples|)
  }

  /** The run's whole decision stream: tokens in mapping order, samples in index order. */
  function Decisions(data: seq<Instrument>, window: nat, stdev: seq<real> -> real): seq<Decision>
  {
    Flatten(PerInstrument(window, stdev), data)
  }

  function PerInstrument(window: nat, stdev: seq<real> -> real): Instrument -> seq<Decision>
  {
    inst => InstrumentDecisions(inst, window, stdev)
  }

  /** The decisions of each entry of the mapping in turn. */
  function Flatten(f: Instrument -> seq<Decision>, data: seq<Instrument>): seq<Decision>
  {
    if |data| == 0 then [] else Flatten(f, data[..|data| - 1]) + f(data[|data| - 1])
  }

  lemma FlattenSnoc(f: Instrument -> seq<Decision>, xs: seq<Instrument>, x: Instrument)
    ensures Flatten(f, xs + [x]) == Flatten(f, xs) + f(x)
  {
    assert (xs + [x])[..|xs|] == xs;
  }

  lemma {:induction false} FlattenConcat(f: Instrument -> seq<Decision>, xs: seq<Instrument>, ys: seq<Instrument>)
    ensures Flatten(f, xs + ys) == Flatten(f, xs) + Flatten(f, ys)
  {
    if |ys| == 0 {
      assert xs + ys == xs;
    } else {
      var n := |ys| - 1;
      var init, last := ys[..n], ys[n];
      assert ys == init + [last];
      assert xs + ys == (xs + init) + [last];
      FlattenConcat(f, xs, init);
      FlattenSnoc(f, xs + init, last);
      FlattenSnoc(f, init, last);
      var dx, di, dl := Flatten(f, xs), Flatten(f, init), f(last);
      assert (dx + di) + dl == dx + (di + dl);
    }
  }

  /** The decisions of the first k+1 tokens: those of the first k, then token k's, sample by sample. */
  lemma DecisionsNext(data: seq<Instrument>, k: nat, window: nat, stdev: seq<real> -> real)
    requires k < |data|
    ensures Decisions(data[..k + 1], window, stdev)
            == Decisions(data[..k], window, stdev) + SeriesDecisions(data[k].token, data[k].samples, BollingerBands(Closes(data[k].samples), window, stdev), |data[k].samples|)
  {
    assert data[..k + 1] == data[..k] + [data[k]];
    FlattenSnoc(PerInstrument(window, stdev), data[..k], data[k]);
  }

  ghost predicate PositiveCloses(data: seq<Instrument>)
  {
    forall k, i :: 0 <= k < |data| && 0 <= i < |data[k].samples| ==> data[k].samples[i].close > 0.0
  }

  /** Sample i of a series fires and produces decision d. */
  ghost predicate Fires(token: string, samples: seq<Sample>, bands: seq<Option<Band>>, i: nat, d: Decision)
    requires |samples| == |bands|
  {
    i < |samples| && DecisionAt(token, samples[i], bands[i]) == [d]
  }

  /**
   * A series' decisions are exactly those its samples fire: every sample with
   * a signal contributes one decision, and nothing else does.
   */
  lemma {:induction false} SeriesDecisionsExact(token: string, samples: seq<Sample>, bands: seq<Option<Band>>, n: nat, d: Decision)
    requires n <= |samples| == |bands|
    ensures d in SeriesDecisions(token, samples, bands, n) <==>
            exists i :: 0 <= i < n && Fires(token, samples, bands, i, d)
  {
    if n > 0 {
      SeriesDecisionsExact(token, samples, bands, n - 1, d);
      var last := DecisionAt(token, samples[n - 1], bands[n - 1]);
      assert |last| <= 1;
      if d in last {
        assert Fires(token, samples, bands, n - 1, d);
      }
      if exists i :: 0 <= i < n && Fires(token, samples, bands, i, d) {
        var i :| 0 <= i < n && Fires(token, samples, bands, i, d);
        if i == n - 1 {
          assert d in last;
        }
      }
    }
  }

  /** Sample order: the decisions of an earlier prefix come first, unchanged. */
  lemma {:induction false} SeriesDecisionsPrefix(token: string, samples: seq<Sample>, bands: seq<Option<Band>>, n: nat, m: nat)
    requires n <= m <= |samples| == |bands|
    ensures SeriesDecisions(token, samples, bands, n) <= SeriesDecisions(token, samples, bands, m)
  {
    if n < m {
      SeriesDecisionsPrefix(token, samples, bands, n, m - 1);
    }
  }

  /** Every decision of a series of positive closes has a positive price and names the series' token. */
  lemma {:induction false} SeriesDecisionsPositive(token: string, samples: seq<Sample>, bands: seq<Option<Band>>, n: nat)
    requires n <= |samples| == |bands|
    requires forall i :: 0 <= i < |samples| ==> samples[i].close > 0.0
    ensures PositivePrices(SeriesDecisions(token, samples, bands, n))
    ensures forall j :: 0 <= j < |SeriesDecisions(token, samples, bands, n)| ==>
              SeriesDecisions(token, samples, bands, n)[j].token == token
  {
    if n > 0 {
      SeriesDecisionsPositive(token, samples, bands, n - 1);
    }
  }

  /** The warm-up: no sample before index window-1 produces a decision. */
  lemma {:induction false} WarmUpSilent(inst: Instrument, window: nat, stdev: seq<real> -> real, n: nat)
    requires n <= |inst.samples| && n < window
    ensures SeriesDecisions(inst.token, inst.samples, BollingerBands(Closes(inst.samples), window, stdev), n) == []
  {
    if n > 0 {
      WarmUpSilent(inst, window, stdev, n - 1);
    }
  }

  /** A series shorter than the window contributes no decision, hence no record. */
  lemma ShortSeriesSilent(inst: Instrument, window: nat, stdev: seq<real> -> real)
    requires |inst.samples| < window
    ensures InstrumentDecisions(inst, window, stdev) == []
  {
    WarmUpSilent(inst, window, stdev, |inst.samples|);
  }

  /** A window of 0 or 1 never defines a band, so such a run decides nothing. */
  lemma {:induction false} NarrowWindowSilent(inst: Instrument, window: nat, stdev: seq<real> -> real, n: nat)
    requires window < 2 && n <= |inst.samples|
    ensures SeriesDecisions(inst.token, inst.samples, BollingerBands(Closes(inst.samples), window, stdev), n) == []
  {
    if n > 0 {
      NarrowWindowSilent(inst, window, stdev, n - 1);
    }
  }

  /** Token order: the decisions of a mapping split in two are those of its halves, in order. */
  lemma DecisionsConcat(xs: seq<Instrument>, ys: seq<Instrument>, window: nat, stdev: seq<real> -> real)
    ensures Decisions(xs + ys, window, stdev) == Decisions(xs, window, stdev) + Decisions(ys, window, stdev)
  {
    FlattenConcat(PerInstrument(window, stdev), xs, ys);
  }

  /** Positive closes give positive-price decisions, so the whole stream can be replayed. */
  lemma {:induction false} DecisionsPositive(data: seq<Instrument>, window: nat, stdev: seq<real> -> real)
    requires PositiveCloses(data)
    ensures PositivePrices(Decisions(data, window, stdev))
  {
    if |data| > 0 {
      var n := |data| - 1;
      assert PositiveCloses(data[..n]);
      DecisionsPositive(data[..n], window, stdev);
      var inst := data[n];
      var bands := BollingerBands(Closes(inst.samples), window, stdev);
      SeriesDecisionsPositive(inst.token, inst.samples, bands, |inst.samples|);
    }
  }
}
