/** Simple mode with its state updated in place, proved against NetPosition and SimpleRun. */
module SimpleRunner {
  import opened Market
  import opened Rounding
  import opened NetPosition
  import opened Risk
  import opened SimpleRun

  class NetBroker {
    const config: BrokerModel.BrokerConfig
    var capital: real
    var totalCommission: real
    var position: Option<Position>
    var draws: nat

    ghost function State(): Account
      reads this
    {
      Account(capital, totalCommission, position)
    }

    constructor (config: BrokerModel.BrokerConfig, initialCapital: real)
      ensures State() == Account(initialCapital, 0.0, None) && draws == 0 && this.config == config
    {
      this.config := config;
      capital := initialCapital;
      totalCommission := 0.0;
      position := None;
      draws := 0;
    }

    /** A buy closes or reduces a short first, then averages, flips or keeps the cost. */
    method BuyInto(current: Position, quantity: real, price: real)
      returns (newQty: real, newAvg: real, realizedPnl: real)
      modifies this`capital
      ensures var f := Fill(Buy, quantity, price);
        && newQty == current.quantity + quantity && newAvg == NewAverage(current, f)
        && realizedPnl == current.realizedPnl + ClosingPnl(current, f)
        && capital == old(capital) + ClosingPnl(current, f)
    {
      realizedPnl := current.realizedPnl;
      newQty := current.quantity + quantity;
      if current.quantity < 0.0 {
        var closeQty := MinReal(quantity, AbsReal(current.quantity));
        var pnl := closeQty * (current.averageCost - price);
        realizedPnl := realizedPnl + pnl;
        capital := capital + pnl;
      }
      newAvg := 0.0;
      if newQty != 0.0 {
        if current.quantity >= 0.0 {
          newAvg := (current.quantity * current.averageCost + quantity * price) / newQty;
        } else if newQty > 0.0 {
          newAvg := price;
        } else {
          newAvg := current.averageCost;
        }
      }
    }

    /** A sell closes or reduces a long first, then averages, flips or keeps the cost. */
    method SellInto(current: Position, quantity: real, price: real)
      returns (newQty: real, newAvg: real, realizedPnl: real)
      modifies this`capital
      ensures var f := Fill(Sell, quantity, price);
        && newQty == current.quantity - quantity && newAvg == NewAverage(current, f)
        && realizedPnl == current.realizedPnl + ClosingPnl(current, f)
        && capital == old(capital) + ClosingPnl(current, f)
    {
      realizedPnl := current.realizedPnl;
      newQty := current.quantity - quantity;
      if current.quantity > 0.0 {
        var closeQty := MinReal(quantity, current.quantity);
        var pnl := closeQty * (price - current.averageCost);
        realizedPnl := realizedPnl + pnl;
        capital := capital + pnl;
      }
      newAvg := 0.0;
      if newQty != 0.0 {
        if current.quantity <= 0.0 {
          var totalCost := AbsReal(current.quantity) * current.averageCost + quantity * price;
          newAvg := totalCost / AbsReal(newQty);
        } else if newQty < 0.0 {
          newAvg := price;
        } else {
          newAvg := current.averageCost;
        }
      }
    }

    method UpdatePosition(side: OrderSide, quantity: real, price: real)
      modifies this`capital, this`position
      ensures State() == NetPosition.UpdatePosition(old(State()), Fill(side, quantity, price))
    {
      hide NewAverage, ClosingPnl, Round5, Round2;
      var current := if position.Some? then position.value else Position(0.0, 0.0, 0.0);
      var newQty, newAvg, realizedPnl: real;
      if side == Buy {
        newQty, newAvg, realizedPnl := BuyInto(current, quantity, price);
      } else {
        newQty, newAvg, realizedPnl := SellInto(current, quantity, price);
      }
      position := Some(Position(newQty, Round5(newAvg), Round2(realizedPnl)));
    }

    method FillMarketOrder(side: OrderSide, quantity: real, close: real) returns (price: real)
      modifies this
      ensures price == BrokerModel.Friction(config, old(draws), side, close) && draws == old(draws) + 1
      ensures State() == FillMarket(old(State()), config.commissionPerTrade, Fill(side, quantity, price))
    {
      price := BrokerModel.Friction(config, draws, side, close);
      draws := draws + 1;
      totalCommission := totalCommission + config.commissionPerTrade;
      capital := capital - config.commissionPerTrade;
      UpdatePosition(side, quantity, price);
    }

    function GetPositions(close: real): Option<PositionView>
      reads this
    {
      View(Account(capital, totalCommission, position), close)
    }

    function GetEquity(close: real): real
      reads this
    {
      Equity(Account(capital, totalCommission, position), close)
    }

    function RealizedPnl(): real
      reads this
    {
      if position.Some? then position.value.realizedPnl else 0.0
    }
  }

  class SimpleBacktest {
    const broker: NetBroker
    const risk: RiskEngine
    const positionSize: real
    var saved: Option<PositionView>
    var tradePnls: seq<real>
    var peakEquity: real
    ghost var fills: seq<Fill>

    ghost function State(): Sim
      reads this, broker
    {
      Sim(broker.State(), broker.draws, saved, tradePnls, peakEquity, fills)
    }

    ghost function Config(): SimpleConfig
      reads risk
    {
      SimpleConfig(risk.config, risk.killSwitch, broker.config, positionSize)
    }

    constructor (broker: NetBroker, risk: RiskEngine, positionSize: real, initialCapital: real)
      requires broker.State() == Account(initialCapital, 0.0, None) && broker.draws == 0
      ensures State() == InitialSim(initialCapital)
      ensures this.broker == broker && this.risk == risk && this.positionSize == positionSize
    {
      this.broker := broker;
      this.risk := risk;
      this.positionSize := positionSize;
      saved := None;
      tradePnls := [];
      peakEquity := initialCapital;
      fills := [];
    }

    /** One bar: risk gate, market order, repository, ledger, peak. */
    method RunStep(x: Input) returns (traded: bool)
      modifies this, broker
      ensures State() == SimpleRun.Step(Config(), old(State()), x)
      ensures traded <==>
        x.signal.Some? && Verdict(risk.config, risk.killSwitch, RiskCase(old(State()), x, x.signal.value)) == Approved
    {
      traded := false;
      if x.signal.Some? {
        traded := Trade(x, x.signal.value);
      }
      var equity := broker.GetEquity(x.close);
      if equity > peakEquity {
        peakEquity := equity;
      }
    }

    method Trade(x: Input, signal: SimpleSignal) returns (traded: bool)
      modifies this, broker
      ensures traded <==> Verdict(risk.config, risk.killSwitch, RiskCase(old(State()), x, signal)) == Approved
      ensures State() == if traded then Execute(Config(), old(State()), x, signal) else old(State())
    {
      hide FillMarket, BrokerModel.Friction, Verdict;
      var previous := broker.RealizedPnl();
      var equity := broker.GetEquity(x.close);
      var decision := risk.Evaluate(Case(signal.stopLoss, saved, x.tradesToday, equity, peakEquity, tradePnls));
      if decision != Approved {
        return false;
      }
      var side := if signal.long then Buy else Sell;
      var quantity := PositionSize(risk.config, signal.stopLoss, equity, x.close);
      if quantity <= 0.0 {
        quantity := positionSize;
      }
      quantity := MinReal(quantity, positionSize);
      var price := broker.FillMarketOrder(side, quantity, x.close);
      fills := fills + [Fill(side, quantity, price)];
      saved := broker.GetPositions(x.close);
      var pnl := broker.RealizedPnl() - previous;
      if pnl != 0.0 {
        tradePnls := tradePnls + [pnl];
      }
      return true;
    }
  }
}
