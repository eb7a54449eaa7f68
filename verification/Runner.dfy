/** The backtest runner in grid mode with its maps updated in place, proved against RunnerModel. */
module Runner {
  import opened Market
  import opened Rounding
  import B = BrokerModel
  import opened M = RunnerModel
  import opened MarketData
  import opened TradeKeys
  import opened StepAgreement
  import opened SlidingGrid
  import opened SimulatedBroker

  class BacktestRunner {
    const strategy: CibySlidingGrid
    const broker: SimulatedBrokerAdapter
    var pendingOrderMap: map<Key, nat>
    var gridTradeMap: map<Key, nat>
    var tradePnls: seq<real>

    /** The three objects as one value. */
    ghost function State(): M.World
      reads this, strategy, broker
    {
      M.World(strategy.State(), broker.State(), gridTradeMap, pendingOrderMap, tradePnls)
    }

    ghost function Config(): M.RunConfig {
      M.RunConfig(strategy.config, broker.config, strategy.sortKeys)
    }

    constructor (strategy: CibySlidingGrid, broker: SimulatedBrokerAdapter)
      ensures this.strategy == strategy && this.broker == broker
      ensures State() == M.World(strategy.State(), broker.State(), map[], map[], [])
    {
      this.strategy := strategy;
      this.broker := broker;
      pendingOrderMap := map[];
      gridTradeMap := map[];
      tradePnls := [];
    }

    /** The key that holds a broker trade, found by walking the map. */
    method FindKey(id: nat) returns (key: Option<Key>)
      requires Injective(gridTradeMap)
      ensures key == KeyOf(gridTradeMap, id)
    {
      var rest := gridTradeMap.Keys;
      while rest != {}
        invariant rest <= gridTradeMap.Keys
        invariant forall k :: k in gridTradeMap && gridTradeMap[k] == id ==> k in rest
        decreases |rest|
      {
        var k :| k in rest;
        if gridTradeMap[k] == id {
          return Some(k);
        }
        rest := rest - {k};
      }
      return None;
    }

    // ---- Fills and closures

    method HandleFill(trade: B.OpenTrade)
      modifies this`pendingOrderMap, this`gridTradeMap, broker`openTrades, strategy
      ensures State() == M.HandleFill(old(State()), trade)
    {
      if trade.gridKey.Some? {
        var key := trade.gridKey.value;
        pendingOrderMap := pendingOrderMap - {key};
        gridTradeMap := gridTradeMap[key := trade.id];
        broker.StampTrade(trade.id, key);
        strategy.ReportFill(key);
      }
    }

    method HandleFills(newlyFilled: seq<B.OpenTrade>)
      modifies this`pendingOrderMap, this`gridTradeMap, broker`openTrades, strategy
      ensures State() == M.HandleFills(old(State()), newlyFilled)
    {
      for i := 0 to |newlyFilled|
        invariant State() == M.HandleFills(old(State()), newlyFilled[..i])
      {
        assert newlyFilled[..i + 1][..i] == newlyFilled[..i];
        HandleFill(newlyFilled[i]);
      }
      assert newlyFilled[..|newlyFilled|] == newlyFilled;
    }

    method HandleClosures(newlyClosed: seq<B.ClosedTrade>)
      requires Injective(gridTradeMap)
      modifies this`gridTradeMap, this`tradePnls, strategy
      ensures State() == M.HandleClosures(old(State()), newlyClosed)
    {
      for i := 0 to |newlyClosed|
        invariant State() == M.HandleClosures(old(State()), newlyClosed[..i])
        invariant Injective(gridTradeMap)
      {
        assert newlyClosed[..i + 1][..i] == newlyClosed[..i];
        var closed := newlyClosed[i];
        var key := FindKey(closed.id);
        if key.Some? {
          strategy.ReportTradeClosed(key.value, closed.pnl);
          tradePnls := tradePnls + [closed.pnl];
          gridTradeMap := gridTradeMap - {key.value};
        }
      }
      assert newlyClosed[..|newlyClosed|] == newlyClosed;
    }

    method CalculateGridUnrealized(bar: Bar) returns (unrealized: real)
      ensures unrealized == Round2(B.Unrealized(broker.openTrades, bar.close))
    {
      var total := 0.0;
      for i := 0 to |broker.openTrades|
        invariant total == B.Unrealized(broker.openTrades[..i], bar.close)
      {
        assert broker.openTrades[..i + 1][..i] == broker.openTrades[..i];
        var t := broker.openTrades[i].terms;
        if t.side == Buy {
          total := total + t.quantity * (bar.close - t.openPrice);
        } else {
          total := total + t.quantity * (t.openPrice - bar.close);
        }
      }
      assert broker.openTrades[..|broker.openTrades|] == broker.openTrades;
      unrealized := Round2(total);
    }

    // ---- Signals

    /** Closes one open trade, reports it under its key and banks it; an unknown trade is left alone. */
    method CloseAndBank(id: nat)
      requires broker.currentBar.Some? && Injective(gridTradeMap)
      modifies this`gridTradeMap, this`tradePnls, broker, strategy
      ensures State() == M.CloseAndBank(Config(), old(State()), old(broker.currentBar).value, id)
      ensures broker.currentBar == old(broker.currentBar)
    {
      ghost var b := broker.State();
      var closed := broker.CloseTrade(id);
      if closed.None? {
        return;
      }
      CloseAppends(broker.config, b, broker.currentBar.value, id);
      var key := FindKey(id);
      if key.Some? {
        strategy.ReportTradeClosed(key.value, closed.value.pnl);
        tradePnls := tradePnls + [closed.value.pnl];
        gridTradeMap := gridTradeMap - {key.value};
      }
    }

    method CloseEach(trades: seq<B.OpenTrade>)
      requires broker.currentBar.Some? && Keyed(State())
      modifies this`gridTradeMap, this`tradePnls, broker, strategy
      ensures State() == M.CloseEach(Config(), old(State()), old(broker.currentBar).value, trades)
      ensures broker.currentBar == old(broker.currentBar)
    {
      ghost var rc, w, bar := Config(), State(), broker.currentBar.value;
      for i := 0 to |trades|
        invariant broker.currentBar == old(broker.currentBar)
        invariant State() == M.CloseEach(rc, w, bar, trades[..i])
      {
        hide M.CloseAndBank;
        assert trades[..i + 1][..i] == trades[..i];
        CloseEachKeepsKeyed(rc, w, bar, trades[..i]);
        CloseAndBank(trades[i].id);
      }
      assert trades[..|trades|] == trades;
    }

    method CloseAllTrades()
      requires broker.currentBar.Some? && Keyed(State())
      modifies this, broker, strategy
      ensures State() == M.CloseAllTrades(Config(), old(State()), old(broker.currentBar).value)
      ensures broker.currentBar == old(broker.currentBar)
    {
      var trades := broker.openTrades;
      var cancelled := broker.CancelAllOrders();
      pendingOrderMap := map[];
      CloseEach(trades);
      gridTradeMap := map[];
      strategy.NotifyCloseAllComplete();
    }

    method ProcessGridSignal(signal: Signal)
      requires broker.currentBar.Some? && Keyed(State())
      modifies this, broker, strategy
      ensures State() == M.ProcessSignal(Config(), old(State()), old(broker.currentBar).value, signal)
      ensures broker.currentBar == old(broker.currentBar)
    {
      if signal.CloseAll? {
        CloseAllTrades();
        return;
      }
      var side := OrderSideOf(signal.key.side);
      if signal.orderType != OrderType.Market {
        var ticket := broker.PlacePendingOrder(side, signal.units, signal.limitPrice, signal.stopLoss,
                                               signal.orderType == OrderType.Stop);
        pendingOrderMap := pendingOrderMap[signal.key := ticket.value.id];
        broker.StampOrder(ticket.value.id, signal.key);
        return;
      }
      var ticket := broker.FillMarketOrder(side, signal.units, signal.stopLoss);
      gridTradeMap := gridTradeMap[signal.key := ticket.value.id];
      broker.StampTrade(ticket.value.id, signal.key);
      strategy.ReportFill(signal.key);
    }

    /** Processes a signal, then asks the strategy again. */
    method ProcessAndAsk(signal: Signal, bars: seq<Bar>) returns (next: Option<Signal>)
      requires bars != [] && broker.currentBar == Some(bars[|bars|-1]) && Keyed(State())
      modifies this, broker, strategy
      ensures (State(), next) == M.Ask(Config(), M.ProcessSignal(Config(), old(State()), bars[|bars|-1], signal), bars)
      ensures broker.currentBar == old(broker.currentBar)
      ensures Keyed(State())
    {
      hide M.ProcessSignal, Keyed;
      SignalKeepsKeyed(Config(), State(), bars[|bars|-1], signal);
      ProcessGridSignal(signal);
      AskKeepsKeyed(Config(), State(), bars);
      next := strategy.Generate(bars);
    }

    /** Drains the strategy, at most MAX_SIGNAL_DRAIN signals a bar. */
    method DrainSignals(bars: seq<Bar>) returns (processed: nat, dropped: bool)
      requires bars != [] && broker.currentBar == Some(bars[|bars|-1]) && Keyed(State())
      modifies this, broker, strategy
      ensures M.Drained(State(), processed, dropped) == M.Drain(Config(), old(State()), bars)
      ensures broker.currentBar == old(broker.currentBar)
    {
      hide M.ProcessSignal, M.DrainFrom, Keyed;
      ghost var rc, whole := Config(), M.Drain(Config(), State(), bars);
      AskKeepsKeyed(rc, State(), bars);
      var signal := strategy.Generate(bars);
      hide M.Ask;
      processed := 0;
      while signal.Some? && processed < MAX_SIGNAL_DRAIN
        invariant broker.currentBar == old(broker.currentBar) && Keyed(State())
        invariant processed <= MAX_SIGNAL_DRAIN && M.DrainFrom(rc, State(), bars, signal, processed) == whole
        decreases MAX_SIGNAL_DRAIN - processed
      {
        M.DrainUnfolds(rc, State(), bars, signal, processed);
        signal := ProcessAndAsk(signal.value, bars);
        processed := processed + 1;
      }
      M.DrainUnfolds(rc, State(), bars, signal, processed);
      dropped := signal.Some?;
    }

    // ---- Trims

    method TrimKey(key: Key)
      requires broker.currentBar.Some?
      modifies this, broker, strategy
      ensures State() == M.TrimKey(Config(), old(State()), old(broker.currentBar).value, key)
      ensures broker.currentBar == old(broker.currentBar)
    {
      CancelAt(key);
      if key !in gridTradeMap {
        return;
      }
      var id := gridTradeMap[key];
      ghost var b := broker.State();
      var closed := broker.CloseTrade(id);
      if closed.None? {
        return;
      }
      CloseAppends(broker.config, b, broker.currentBar.value, id);
      tradePnls := tradePnls + [closed.value.pnl];
      gridTradeMap := gridTradeMap - {key};
      strategy.ReportTradeClosed(key, closed.value.pnl);
    }

    /** Cancels the order that rests at a key, if there is one. */
    method CancelAt(key: Key)
      modifies this`pendingOrderMap, broker`pendingOrders
      ensures State() == (var w := old(State());
        if key in w.om then w.(om := w.om - {key}, b := w.b.(pending := B.RemoveById(w.b.pending, w.om[key]))) else w)
    {
      if key in pendingOrderMap {
        var orderId := pendingOrderMap[key];
        pendingOrderMap := pendingOrderMap - {key};
        var found := broker.CancelPendingOrder(orderId);
      }
    }

    method TrimKeys(keys: seq<Key>)
      requires broker.currentBar.Some?
      modifies this, broker, strategy
      ensures State() == M.TrimKeys(Config(), old(State()), old(broker.currentBar).value, keys)
      ensures broker.currentBar == old(broker.currentBar)
    {
      ghost var rc, w0 := Config(), State();
      for i := 0 to |keys|
        invariant broker.currentBar == old(broker.currentBar)
        invariant State() == M.TrimKeys(rc, w0, broker.currentBar.value, keys[..i])
      {
        hide M.TrimKey;
        assert keys[..i + 1][..i] == keys[..i];
        TrimKey(keys[i]);
      }
      assert keys[..|keys|] == keys;
    }

    method HandleLevelsToClose()
      requires broker.currentBar.Some? && Enumerates(Config())
      modifies this, broker, strategy
      ensures State() == M.HandleLevelsToClose(Config(), old(State()), old(broker.currentBar).value)
      ensures broker.currentBar == old(broker.currentBar)
    {
      var keys := strategy.GetLevelsToClose();
      TrimKeys(keys);
    }

    // ---- A step and a run

    /** Steps 1 to 4: the broker's bar, the fills, the closures, the floating result. */
    method ReportBar(bar: Bar)
      requires Keyed(State())
      modifies this, broker, strategy
      ensures State() == M.BeforeDrain(Config(), old(State()), bar)
      ensures broker.currentBar == old(broker.currentBar)
    {
      ReportKeepsKeyed(Config(), State(), bar);
      var newlyFilled, newlyClosed := broker.ProcessBar(bar);
      HandleFills(newlyFilled);
      HandleClosures(newlyClosed);
      var unrealized := CalculateGridUnrealized(bar);
      strategy.UpdateUnrealizedPnl(unrealized);
    }

    /** One bar: process it, report fills and closures, drain the strategy, trim. */
    method RunGridStep(bars: seq<Bar>) returns (dropped: bool)
      requires bars != [] && broker.currentBar == Some(bars[|bars|-1]) && Keyed(State()) && Enumerates(Config())
      modifies this, broker, strategy
      ensures State() == M.GridStep(Config(), old(State()), bars) && Keyed(State())
      ensures dropped == M.Drain(Config(), M.BeforeDrain(Config(), old(State()), bars[|bars|-1]), bars).dropped
      ensures broker.currentBar == old(broker.currentBar)
    {
      hide M.BeforeDrain, M.Drain, M.HandleLevelsToClose, Keyed;
      BeforeDrainKeepsKeyed(Config(), State(), bars[|bars|-1]);
      StepKeepsKeyed(Config(), State(), bars);
      ReportBar(bars[|bars|-1]);
      var processed: nat;
      processed, dropped := DrainSignals(bars);
      HandleLevelsToClose();
    }

    /** Closes one trade at the end of the data; the strategy is not told. */
    method FlattenOne(id: nat)
      requires broker.currentBar.Some?
      modifies this`tradePnls, broker
      ensures State() == M.FlattenOne(Config(), old(State()), old(broker.currentBar).value, id)
      ensures broker.currentBar == old(broker.currentBar)
    {
      ghost var b := broker.State();
      var closed := broker.CloseTrade(id);
      if closed.Some? {
        CloseAppends(broker.config, b, broker.currentBar.value, id);
        tradePnls := tradePnls + [closed.value.pnl];
      }
    }

    method CloseOpenPositionsAtEnd()
      requires broker.currentBar.Some?
      modifies this`gridTradeMap, this`tradePnls, broker
      ensures State() == M.FlattenAtEnd(Config(), old(State()), old(broker.currentBar).value)
      ensures broker.currentBar == old(broker.currentBar)
    {
      ghost var rc, w, bar := Config(), State(), broker.currentBar.value;
      var trades := broker.openTrades;
      for i := 0 to |trades|
        invariant broker.currentBar == old(broker.currentBar)
        invariant State() == M.FlattenEach(rc, w, bar, trades[..i])
      {
        hide M.FlattenOne;
        assert trades[..i + 1][..i] == trades[..i];
        FlattenOne(trades[i].id);
      }
      assert trades[..|trades|] == trades;
      gridTradeMap := map[];
    }

    /** One round of the loop over the bars. */
    method RunBar(marketData: HistoricalMarketDataAdapter) returns (equity: real)
      requires marketData.Valid() && !marketData.IsExhausted() && marketData.barCount >= 1
      requires Keyed(State()) && Enumerates(Config())
      modifies this, broker, strategy, marketData
      ensures marketData.Valid() && marketData.cursor == old(marketData.cursor) + 1
      ensures var window := Visible(marketData.bars, old(marketData.cursor), marketData.barCount);
        window != [] && State() == M.GridStep(Config(), old(State()), window)
      ensures broker.currentBar == Some(marketData.bars[old(marketData.cursor) - 1])
      ensures equity == B.Equity(State().b, marketData.bars[old(marketData.cursor) - 1])
      ensures Keyed(State())
    {
      hide M.GridStep, Keyed;
      broker.SetCurrentBar(marketData.CurrentBar());
      var window := marketData.GetLatestBars(marketData.barCount);
      var dropped := RunGridStep(window);
      equity := broker.Equity();
      var moved := marketData.Advance();
    }

    /** Replays every bar but the last, recording equity. */
    method ReplayBars(marketData: HistoricalMarketDataAdapter, capital: real) returns (equityCurve: seq<real>)
      requires marketData.Valid() && marketData.cursor == marketData.barCount && marketData.barCount >= 1
      requires State() == M.InitialWorld(capital) && Enumerates(Config())
      modifies this, broker, strategy, marketData
      ensures marketData.Valid() && marketData.cursor == |marketData.bars|
      ensures var bars, count := marketData.bars, marketData.barCount;
        && State() == M.Replay(Config(), capital, bars, count, |bars| - count)
        && equityCurve == M.EquityCurve(Config(), capital, bars, count, |bars| - count)
        && (|bars| > count ==> broker.currentBar == Some(bars[|bars| - 2]))
    {
      hide M.GridStep, Enumerates, B.Equity;
      ghost var rc := Config();
      ghost var bars, count := marketData.bars, marketData.barCount;
      equityCurve := [capital];
      assert Keyed(State());
      while !marketData.IsExhausted()
        invariant marketData.Valid() && Keyed(State())
        invariant State() == M.Replay(rc, capital, bars, count, marketData.cursor - count)
        invariant equityCurve == M.EquityCurve(rc, capital, bars, count, marketData.cursor - count)
        invariant marketData.cursor > count ==> broker.currentBar == Some(bars[marketData.cursor - 2])
        decreases |bars| - marketData.cursor
      {
        hide Keyed;
        var equity := RunBar(marketData);
        equityCurve := equityCurve + [equity];
      }
    }

    /** The whole run: the replay, then the liquidation of what is left. */
    method Run(marketData: HistoricalMarketDataAdapter, capital: real) returns (equityCurve: seq<real>)
      requires marketData.Valid() && marketData.cursor == marketData.barCount && marketData.barCount >= 1
      requires State() == M.InitialWorld(capital) && Enumerates(Config())
      modifies this, broker, strategy, marketData
      ensures var bars, count := marketData.bars, marketData.barCount;
        (State(), equityCurve) == M.RunResult(Config(), capital, bars, count)
    {
      equityCurve := ReplayBars(marketData, capital);
      hide M.Replay, M.EquityCurve, M.FlattenEach;
      if marketData.cursor > marketData.barCount {
        CloseOpenPositionsAtEnd();
        var equity := broker.Equity();
        equityCurve := equityCurve + [equity];
      }
    }
  }
}
