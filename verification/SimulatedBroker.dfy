/** The simulated broker in grid mode with its lists updated in place, proved against BrokerModel. */
module SimulatedBroker {
  import opened Market
  import opened Rounding
  import M = BrokerModel

  /** What a placed order returns: its id and its price. */
  datatype Ticket = Ticket(id: nat, price: real)

  class SimulatedBrokerAdapter {
    const config: M.BrokerConfig

    var capital: real
    var totalCommission: real
    var openTrades: seq<M.OpenTrade>
    var pendingOrders: seq<M.PendingOrder>
    var closedTrades: seq<M.ClosedTrade>
    var nextId: nat
    var draws: nat
    var currentBar: Option<Bar>

    /** The books as a value; the current bar is kept apart. */
    ghost function State(): M.Broker
      reads this
    {
      M.Broker(capital, totalCommission, openTrades, pendingOrders, closedTrades, nextId, draws)
    }

    constructor (config: M.BrokerConfig, initialCapital: real)
      ensures State() == M.InitialBroker(initialCapital) && this.config == config && currentBar == None
    {
      this.config := config;
      capital := initialCapital;
      totalCommission := 0.0;
      openTrades := [];
      pendingOrders := [];
      closedTrades := [];
      nextId := 0;
      draws := 0;
      currentBar := None;
    }

    method SetCurrentBar(bar: Bar)
      modifies this`currentBar
      ensures currentBar == Some(bar)
    {
      currentBar := Some(bar);
    }

    /** Worsens a price by half the spread and the next draw. */
    method ApplyFriction(side: OrderSide, base: real) returns (price: real)
      modifies this`draws
      ensures price == M.Friction(config, old(draws), side, base) && draws == old(draws) + 1
    {
      var slip := config.slip(draws);
      draws := draws + 1;
      if side == Buy {
        return Round5(base + config.spread / 2.0 + slip);
      }
      return Round5(base - config.spread / 2.0 - slip);
    }

    method OpenTradeAt(side: OrderSide, quantity: real, price: real, stopLoss: real, gridKey: Option<Key>)
      returns (trade: M.OpenTrade)
      modifies this`capital, this`totalCommission, this`openTrades, this`nextId
      ensures trade == M.Booked(old(nextId), gridKey, M.TradeTerms(side, quantity, price, stopLoss))
      ensures State() == M.OpenAt(config, old(State()), side, quantity, price, stopLoss, gridKey).(draws := old(draws))
      ensures openTrades == old(openTrades) + [trade]
    {
      totalCommission := totalCommission + config.commissionPerTrade;
      capital := capital - config.commissionPerTrade;
      trade := M.Booked(nextId, gridKey, M.TradeTerms(side, quantity, price, stopLoss));
      nextId := nextId + 1;
      openTrades := openTrades + [trade];
    }

    /** A resting order waits; without a current bar the call is an error. */
    method PlacePendingOrder(side: OrderSide, quantity: real, limitPrice: real, stopLoss: real, isStop: bool)
      returns (ticket: Option<Ticket>)
      modifies this`pendingOrders, this`nextId
      ensures currentBar.None? ==> ticket.None? && State() == old(State())
      ensures currentBar.Some? ==> ticket == Some(Ticket(old(nextId), limitPrice))
      ensures currentBar.Some? ==> State() == M.PlacePending(old(State()), side, quantity, limitPrice, stopLoss, isStop)
    {
      if currentBar.None? {
        return None;
      }
      pendingOrders := pendingOrders
        + [M.Booked(nextId, None, M.OrderTerms(side, quantity, limitPrice, stopLoss, isStop))];
      ticket := Some(Ticket(nextId, limitPrice));
      nextId := nextId + 1;
    }

    /** A market order fills at the close; without a current bar the call is an error. */
    method FillMarketOrder(side: OrderSide, quantity: real, stopLoss: real) returns (ticket: Option<Ticket>)
      modifies this`capital, this`totalCommission, this`openTrades, this`nextId, this`draws
      ensures currentBar.None? ==> ticket.None? && State() == old(State())
      ensures currentBar.Some? ==> ticket.Some? && ticket.value.id == old(nextId)
      ensures currentBar.Some? ==>
        State() == M.FillMarket(config, old(State()), currentBar.value, side, quantity, stopLoss)
    {
      if currentBar.None? {
        return None;
      }
      var price := ApplyFriction(side, currentBar.value.close);
      var trade := OpenTradeAt(side, quantity, price, stopLoss, None);
      ticket := Some(Ticket(trade.id, price));
    }

    /** A list with the grid key written onto the first entry with an id, if there is one. */
    static method WithKey<T>(entries: seq<M.Booked<T>>, id: nat, key: Key) returns (r: seq<M.Booked<T>>)
      ensures r == M.Stamp(entries, id, key)
    {
      var i := 0;
      while i < |entries| && entries[i].id != id
        invariant i <= |entries|
        invariant M.Stamp(entries, id, key) == entries[..i] + M.Stamp(entries[i..], id, key)
      {
        assert entries[i..][1..] == entries[i + 1..];
        assert entries[..i] + ([entries[i]] + M.Stamp(entries[i + 1..], id, key))
            == entries[..i + 1] + M.Stamp(entries[i + 1..], id, key);
        i := i + 1;
      }
      if i == |entries| {
        return entries;
      }
      var stamped := entries[i].(gridKey := Some(key));
      r := entries[..i] + [stamped] + entries[i + 1..];
      assert M.Stamp(entries[i..], id, key) == [stamped] + entries[i..][1..];
    }

    method StampTrade(id: nat, key: Key)
      modifies this`openTrades
      ensures State() == old(State()).(openTrades := M.Stamp(old(openTrades), id, key))
    {
      openTrades := WithKey(openTrades, id, key);
    }

    method StampOrder(id: nat, key: Key)
      modifies this`pendingOrders
      ensures State() == old(State()).(pending := M.Stamp(old(pendingOrders), id, key))
    {
      pendingOrders := WithKey(pendingOrders, id, key);
    }

    method CancelPendingOrder(id: nat) returns (found: bool)
      modifies this`pendingOrders
      ensures State() == old(State()).(pending := M.RemoveById(old(pendingOrders), id))
      ensures found <==> exists p :: p in old(pendingOrders) && p.id == id
    {
      var i := 0;
      while i < |pendingOrders|
        invariant i <= |pendingOrders| && pendingOrders == old(pendingOrders)
        invariant forall j :: 0 <= j < i ==> pendingOrders[j].id != id
        invariant M.RemoveById(pendingOrders, id) == pendingOrders[..i] + M.RemoveById(pendingOrders[i..], id)
      {
        assert pendingOrders[i..][1..] == pendingOrders[i + 1..];
        if pendingOrders[i].id == id {
          pendingOrders := pendingOrders[..i] + pendingOrders[i + 1..];
          return true;
        }
        i := i + 1;
      }
      return false;
    }

    method CancelAllOrders() returns (cancelled: nat)
      modifies this`pendingOrders
      ensures State() == old(State()).(pending := []) && cancelled == |old(pendingOrders)|
    {
      cancelled := |pendingOrders|;
      pendingOrders := [];
    }

    // ---- Closing

    /** Books the result of a trade that leaves at a price whose draw was just taken. */
    method SettleTrade(trade: M.OpenTrade, price: real, reason: M.CloseReason) returns (info: M.ClosedTrade)
      modifies this`capital, this`closedTrades, this`openTrades
      ensures State() == M.Settle(old(State()), trade, price, reason).(draws := old(draws))
      ensures closedTrades == old(closedTrades) + [info]
    {
      var pnl := Round2(M.GrossPnl(trade.terms.side, trade.terms.quantity, trade.terms.openPrice, price));
      capital := capital + pnl;
      info := M.ClosedTrade(trade.id, price, pnl, reason);
      closedTrades := closedTrades + [info];
      openTrades := RemoveFirst(openTrades, trade);
    }

    /** Closes one trade at the market; None is the error for an unknown id, or for no current bar. */
    method CloseTrade(id: nat) returns (info: Option<M.ClosedTrade>)
      modifies this`capital, this`closedTrades, this`openTrades, this`draws
      ensures currentBar.None? ==> info.None? && State() == old(State())
      ensures currentBar.Some? ==>
                match M.CloseTrade(config, old(State()), currentBar.value, id)
                case None => info.None? && State() == old(State())
                case Some(b) => State() == b && info.Some? && closedTrades == old(closedTrades) + [info.value]
    {
      var trade := M.FindTrade(openTrades, id);
      if trade.None? || currentBar.None? {
        return None;
      }
      var price := ApplyFriction(Opposite(trade.value.terms.side), currentBar.value.close);
      var closed := SettleTrade(trade.value, price, M.MarketClose);
      info := Some(closed);
    }

    method StopOutTrade(trade: M.OpenTrade, bar: Bar) returns (info: M.ClosedTrade)
      modifies this`capital, this`closedTrades, this`openTrades, this`draws
      ensures State() == M.StopOut(config, old(State()), bar, trade)
      ensures closedTrades == old(closedTrades) + [info]
    {
      var price: real;
      if trade.terms.side == Buy {
        var base := if bar.open < trade.terms.stopLoss then bar.open else trade.terms.stopLoss;
        price := ApplyFriction(Sell, base);
      } else {
        var base := if bar.open > trade.terms.stopLoss then bar.open else trade.terms.stopLoss;
        price := ApplyFriction(Buy, base);
      }
      info := SettleTrade(trade, price, M.StopLossHit);
    }

    method FillPending(order: M.PendingOrder, bar: Bar) returns (trade: M.OpenTrade)
      modifies this`capital, this`totalCommission, this`openTrades, this`pendingOrders, this`nextId, this`draws
      ensures State() == M.FillOrder(config, old(State()), bar, order)
      ensures openTrades == old(openTrades) + [trade]
    {
      var terms := order.terms;
      var base := terms.limitPrice;
      if terms.isStop {
        base := if terms.side == Buy then (if bar.open > base then bar.open else base)
                else (if bar.open < base then bar.open else base);
      }
      var price := ApplyFriction(terms.side, base);
      trade := OpenTradeAt(terms.side, terms.quantity, price, terms.stopLoss, order.gridKey);
      pendingOrders := RemoveFirst(pendingOrders, order);
    }

    // ---- A bar

    /** Stops first, in the order of the open trades. */
    method TriggerStops(bar: Bar) returns (newlyClosed: seq<M.ClosedTrade>)
      modifies this`capital, this`closedTrades, this`openTrades, this`draws
      ensures State() == M.AfterStops(config, old(State()), bar)
      ensures closedTrades == old(closedTrades) + newlyClosed
    {
      var tradesToClose: seq<M.OpenTrade> := [];
      for i := 0 to |openTrades|
        invariant tradesToClose == M.StoppedOut(openTrades[..i], bar)
        invariant State() == old(State())
      {
        assert openTrades[..i + 1][..i] == openTrades[..i];
        if M.StopHit(openTrades[i], bar) {
          tradesToClose := tradesToClose + [openTrades[i]];
        }
      }
      assert openTrades[..|openTrades|] == openTrades;
      newlyClosed := [];
      for i := 0 to |tradesToClose|
        invariant State() == M.StopOuts(config, old(State()), bar, tradesToClose[..i])
        invariant closedTrades == old(closedTrades) + newlyClosed
      {
        assert tradesToClose[..i + 1][..i] == tradesToClose[..i];
        var info := StopOutTrade(tradesToClose[i], bar);
        newlyClosed := newlyClosed + [info];
      }
      assert tradesToClose[..|tradesToClose|] == tradesToClose;
    }

    /** Entries second, in the order of the pending orders. */
    method TriggerEntries(bar: Bar) returns (newlyFilled: seq<M.OpenTrade>)
      modifies this`capital, this`totalCommission, this`openTrades, this`pendingOrders, this`nextId, this`draws
      ensures State() == M.FillOrders(config, old(State()), bar, M.Triggered(old(pendingOrders), bar))
      ensures openTrades == old(openTrades) + newlyFilled
    {
      var ordersToFill: seq<M.PendingOrder> := [];
      for i := 0 to |pendingOrders|
        invariant ordersToFill == M.Triggered(pendingOrders[..i], bar)
        invariant State() == old(State())
      {
        assert pendingOrders[..i + 1][..i] == pendingOrders[..i];
        if M.Touched(pendingOrders[i], bar) {
          ordersToFill := ordersToFill + [pendingOrders[i]];
        }
      }
      assert pendingOrders[..|pendingOrders|] == pendingOrders;
      newlyFilled := [];
      for i := 0 to |ordersToFill|
        invariant State() == M.FillOrders(config, old(State()), bar, ordersToFill[..i])
        invariant openTrades == old(openTrades) + newlyFilled
      {
        assert ordersToFill[..i + 1][..i] == ordersToFill[..i];
        var trade := FillPending(ordersToFill[i], bar);
        newlyFilled := newlyFilled + [trade];
      }
      assert ordersToFill[..|ordersToFill|] == ordersToFill;
    }

    /** Returns the trades the bar opened and the trades it closed. */
    method ProcessBar(bar: Bar) returns (newlyFilled: seq<M.OpenTrade>, newlyClosed: seq<M.ClosedTrade>)
      modifies this`capital, this`totalCommission, this`openTrades, this`pendingOrders, this`closedTrades, this`nextId,
        this`draws
      ensures State() == M.ProcessBar(config, old(State()), bar)
      ensures newlyFilled == M.NewFills(config, old(State()), bar)
      ensures newlyClosed == M.NewClosures(config, old(State()), bar)
    {
      ghost var before := State();
      if openTrades == [] && pendingOrders == [] {
        return [], [];
      }
      newlyClosed := TriggerStops(bar);
      ghost var closed := closedTrades;
      newlyFilled := TriggerEntries(bar);
      assert closedTrades == closed;
    }

    /** Capital plus the floating result of every open trade at the current close. */
    method Equity() returns (equity: real)
      ensures equity == if currentBar.Some? then M.Equity(State(), currentBar.value) else capital
    {
      var unrealized := 0.0;
      if currentBar.Some? {
        var price := currentBar.value.close;
        for i := 0 to |openTrades|
          invariant unrealized == M.Unrealized(openTrades[..i], price)
        {
          assert openTrades[..i + 1][..i] == openTrades[..i];
          var t := openTrades[i].terms;
          if t.side == Buy {
            unrealized := unrealized + t.quantity * (price - t.openPrice);
          } else {
            unrealized := unrealized + t.quantity * (t.openPrice - price);
          }
        }
        assert openTrades[..|openTrades|] == openTrades;
      }
      return capital + unrealized;
    }
  }
}
