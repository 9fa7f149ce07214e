/**
 * The backtesting engine object: it owns the input mapping, the cash, the
 * per-token holdings and the trade ledger, and updates them in place.
 */
module Trading {
  import opened Options
  import opened Bollinger
  import opened Ledger

  /** The window `run` annotates every series with. */
  const DefaultWindow: nat := 20

  class Backtest {
    /** The input mapping, in its iteration order. */
    const data: seq<Instrument>
    const initialCapital: real
    var capital: real
    var tokenBalance: map<string, real>
    var trades: seq<Trade>

    /** The account part of the state. */
    ghost function State(): Account
      reads this
    {
      Account(capital, tokenBalance)
    }

    ghost predicate Valid()
      reads this
    {
      initialCapital != 0.0 && NonNegative(State())
    }

    constructor (data: seq<Instrument>, initialCapital: real := 100000.0)
      requires initialCapital != 0.0
      ensures Valid()
      ensures this.data == data && this.initialCapital == initialCapital
      ensures capital == initialCapital && tokenBalance == map[] && trades == []
    {
      this.data := data;
      this.initialCapital := initialCapital;
      capital := initialCapital;
      trades := [];
      tokenBalance := map[];
    }

    /**
     * One trade: the account moves as `Apply` says and exactly one record is
     * appended, whose return is taken on the cash after the trade.
     */
    method ExecuteTrade(token: string, date: string, side: Side, price: real)
      requires Valid() && price > 0.0
      modifies this
      ensures Valid()
      ensures State() == Apply(old(State()), token, side, price)
      ensures trades == old(trades) + [Trade(token, date, side, price, ProfitPercentage(capital, initialCapital))]
    {
      Settle(token, side, price);
      var profitPercentage := ProfitPercentage(capital, initialCapital);
      trades := trades + [Trade(token, date, side, price, profitPercentage)];
    }

    /**
     * The cash and holdings part of a trade: a BUY spends the notional and
     * adds notional/price units; a SELL liquidates a positive position.
     */
    method Settle(token: string, side: Side, price: real)
      requires Valid() && price > 0.0
      modifies this
      ensures Valid()
      ensures State() == Apply(old(State()), token, side, price)
      ensures trades == old(trades)
    {
      ApplyKeepsNonNegative(State(), token, side, price);
      match side {
        case Buy =>
          capital := capital - Notional;
          var quantity := Notional / price;
          var held := if token in tokenBalance then tokenBalance[token] else 0.0;
          tokenBalance := tokenBalance[token := held + quantity];
        case Sell =>
          if token in tokenBalance && tokenBalance[token] > 0.0 {
            var quantity := tokenBalance[token];
            capital := capital + quantity * price;
            tokenBalance := tokenBalance[token := 0.0];
          }
      }
    }

    /**
     * The body of the inner loop of `run` for one sample: BUY below 97% of
     * the lower band, else SELL at or above the upper band, else nothing; an
     * undefined band compares false both times. The decision stream replayed
     * so far grows by exactly this sample's decision.
     */
    method Consider(token: string, s: Sample, band: Option<Band>,
                    ghost start: Account, ghost done: seq<Decision>, ghost prior: seq<Trade>)
      requires Valid() && s.close > 0.0 && PositivePrices(done)
      requires State() == Replay(start, done)
      requires trades == prior + Trades(start, done, initialCapital)
      modifies this
      ensures Valid()
      ensures PositivePrices(done + DecisionAt(token, s, band))
      ensures State() == Replay(start, done + DecisionAt(token, s, band))
      ensures trades == prior + Trades(start, done + DecisionAt(token, s, band), initialCapital)
    {
      var price := s.close;
      ghost var next := DecisionAt(token, s, band);
      match band {
        case None =>
          assert next == [] && done + next == done;
        case Some(b) =>
          if price < b.lower * BuyFactor {
            ghost var d := Decision(token, s.date, Buy, price);
            assert next == [d];
            ReplayExtend(start, done, d, initialCapital);
            ghost var record := Trade(token, s.date, Buy, price, ProfitPercentage(Replay(start, done + [d]).capital, initialCapital));
            AppendAssociative(prior, Trades(start, done, initialCapital), [record]);
            ExecuteTrade(token, s.date, Buy, price);
          } else if price >= b.upper {
            ghost var d := Decision(token, s.date, Sell, price);
            assert next == [d];
            ReplayExtend(start, done, d, initialCapital);
            ghost var record := Trade(token, s.date, Sell, price, ProfitPercentage(Replay(start, done + [d]).capital, initialCapital));
            AppendAssociative(prior, Trades(start, done, initialCapital), [record]);
            ExecuteTrade(token, s.date, Sell, price);
          } else {
            assert next == [] && done + next == done;
          }
      }
    }

    /**
     * The run: every token in mapping order, every sample in index order,
     * each decision applied as it is made. The account ends as the replay of
     * the decision stream and the ledger grows by that stream's records.
     */
    method Run(stdev: seq<real> -> real)
      requires Valid() && PositiveCloses(data)
      modifies this
      ensures Valid()
      ensures PositivePrices(Decisions(data, DefaultWindow, stdev))
      ensures State() == Replay(old(State()), Decisions(data, DefaultWindow, stdev))
      ensures trades == old(trades) + Trades(old(State()), Decisions(data, DefaultWindow, stdev), initialCapital)
    {
      ghost var start := State();
      ghost var done: seq<Decision> := [];
      var k := 0;
      while k < |data|
        invariant 0 <= k <= |data|
        invariant Valid()
        invariant done == Decisions(data[..k], DefaultWindow, stdev)
        invariant PositivePrices(done)
        invariant State() == Replay(start, done)
        invariant trades == old(trades) + Trades(start, done, initialCapital)
      {
        var token := data[k].token;
        var samples := data[k].samples;
        var bands := BollingerBands(Closes(samples), DefaultWindow, stdev);
        ghost var before := done;
        DecisionsNext(data, k, DefaultWindow, stdev);
        assert done + SeriesDecisions(token, samples, bands, 0) == done;
        var i := 0;
        while i < |samples|
          invariant 0 <= i <= |samples|
          invariant Valid()
          invariant done == before + SeriesDecisions(token, samples, bands, i)
          invariant PositivePrices(done)
          invariant State() == Replay(start, done)
          invariant trades == old(trades) + Trades(start, done, initialCapital)
        {
          assert samples[i].close > 0.0 by {
            assert data[k].samples[i].close > 0.0;
          }
          ghost var next := DecisionAt(token, samples[i], bands[i]);
          AppendAssociative(before, SeriesDecisions(token, samples, bands, i), next);
          Consider(token, samples[i], bands[i], start, done, old(trades));
          done := done + next;
          i := i + 1;
        }
        k := k + 1;
      }
      assert data[..k] == data;
    }
  }
}
