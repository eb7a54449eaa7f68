/** The backtest in simple mode: one risk-gated market order a bar, on a net position. */
module SimpleRun {
  import opened Market
  import opened Rounding
  import BrokerModel
  import opened NetPosition
  import opened Risk

  /** A signal of a stateless strategy; everything that is not long is sold. */
  datatype SimpleSignal = SimpleSignal(long: bool, stopLoss: Option<real>)

  /** One bar as the step sees it: the close, the strategy's answer, the repository's count of today's trades. */
  datatype Input = Input(close: real, signal: Option<SimpleSignal>, tradesToday: nat)

  datatype SimpleConfig = SimpleConfig(risk: RiskConfig, killSwitch: bool, broker: BrokerModel.BrokerConfig,
                                       positionSize: real)

  /** `saved` is the repository's position; `fills` records what was executed. */
  datatype Sim = Sim(account: Account, draws: nat, saved: Option<PositionView>, pnls: seq<real>, peak: real,
                     fills: seq<Fill>)

  function InitialSim(capital: real): Sim {
    Sim(Account(capital, 0.0, None), 0, None, [], capital, [])
  }

  /** The broker's position marked at the close. */
  function View(a: Account, close: real): Option<PositionView> {
    match a.position
    case None => None
    case Some(p) =>
      Some(PositionView(p.quantity, p.realizedPnl,
                        if p.quantity == 0.0 then 0.0 else Round2(p.quantity * (close - p.averageCost))))
  }

  function OrderQuantity(c: SimpleConfig, s: Sim, x: Input, signal: SimpleSignal): real {
    var units := PositionSize(c.risk, signal.stopLoss, Equity(s.account, x.close), x.close);
    MinReal(if units <= 0.0 then c.positionSize else units, c.positionSize)
  }

  function RiskCase(s: Sim, x: Input, signal: SimpleSignal): Case {
    Case(signal.stopLoss, s.saved, x.tradesToday, Equity(s.account, x.close), s.peak, s.pnls)
  }

  /** The order of an approved signal, executed. */
  function Execute(c: SimpleConfig, s: Sim, x: Input, signal: SimpleSignal): Sim {
    var side := if signal.long then Buy else Sell;
    var f := Fill(side, OrderQuantity(c, s, x, signal), BrokerModel.Friction(c.broker, s.draws, side, x.close));
    var a := FillMarket(s.account, c.broker.commissionPerTrade, f);
    var pnl := Held(a).realizedPnl - Held(s.account).realizedPnl;
    s.(account := a, draws := s.draws + 1, saved := View(a, x.close), fills := s.fills + [f],
       pnls := if pnl != 0.0 then s.pnls + [pnl] else s.pnls)
  }

  function Step(c: SimpleConfig, s: Sim, x: Input): Sim {
    var s1 :=
      if x.signal.Some? && Verdict(c.risk, c.killSwitch, RiskCase(s, x, x.signal.value)) == Approved
      then Execute(c, s, x, x.signal.value) else s;
    var equity := Equity(s1.account, x.close);
    s1.(peak := if equity > s1.peak then equity else s1.peak)
  }

  function Run(c: SimpleConfig, capital: real, inputs: seq<Input>): Sim {
    if inputs == [] then InitialSim(capital)
    else Step(c, Run(c, capital, inputs[..|inputs|-1]), inputs[|inputs|-1])
  }

  // ---- The run invariant

  /**
   The repository agrees with the broker, the ledger with the position, the account with its fills; the position is
   bounded.
   */
  ghost predicate Consistent(c: SimpleConfig, capital: real, s: Sim) {
    && s.saved.Some? == s.account.position.Some?
    && Quantity(s.saved) == Held(s.account).quantity
    && Sum(s.pnls) == Held(s.account).realizedPnl
    && s.account == AfterFills(capital, c.broker.commissionPerTrade, s.fills) && Proper(s.fills)
    && AbsReal(Held(s.account).quantity) < c.risk.maxPositionSize as real + c.positionSize
  }

  lemma ApprovedIsSmall(c: SimpleConfig, s: Sim, x: Input, signal: SimpleSignal)
    requires c.risk.enabled && Verdict(c.risk, c.killSwitch, RiskCase(s, x, signal)) == Approved
    ensures AbsReal(Quantity(s.saved)) < c.risk.maxPositionSize as real
  {
  }

  lemma HeldAfterFill(a: Account, fee: real, f: Fill)
    ensures FillMarket(a, fee, f).position.Some? && Held(FillMarket(a, fee, f)).quantity == Held(a).quantity + Signed(f)
  {
  }

  lemma OrderIsCapped(c: SimpleConfig, s: Sim, x: Input, signal: SimpleSignal)
    requires c.positionSize > 0.0
    ensures 0.0 < OrderQuantity(c, s, x, signal) <= c.positionSize
  {
  }

  lemma BoundedAfter(quantity: real, more: real, cap: real, size: real)
    requires AbsReal(quantity) < cap && -size <= more <= size
    ensures AbsReal(quantity + more) < cap + size
  {
  }

  /** The account after one more proper fill is the account of the longer list of fills. */
  lemma OneMoreProper(initial: real, fee: real, fills: seq<Fill>, f: Fill)
    requires Proper(fills) && f.quantity >= 0.0 && Round5(f.price) == f.price
    ensures Proper(fills + [f])
    ensures AfterFills(initial, fee, fills + [f]) == FillMarket(AfterFills(initial, fee, fills), fee, f)
  {
  }

  lemma ExecuteKeeps(c: SimpleConfig, capital: real, s: Sim, x: Input, signal: SimpleSignal)
    requires Consistent(c, capital, s) && c.positionSize > 0.0
    requires AbsReal(Quantity(s.saved)) < c.risk.maxPositionSize as real
    ensures Consistent(c, capital, Execute(c, s, x, signal))
  {
    hide FillMarket, AfterFills, Proper, OrderQuantity, BrokerModel.Friction, Round5, Round2;
    var side := if signal.long then Buy else Sell;
    var f := Fill(side, OrderQuantity(c, s, x, signal), BrokerModel.Friction(c.broker, s.draws, side, x.close));
    var a := FillMarket(s.account, c.broker.commissionPerTrade, f);
    OrderIsCapped(c, s, x, signal);
    FrictionHasFiveDecimals(c.broker, s.draws, side, x.close);
    OneMoreProper(capital, c.broker.commissionPerTrade, s.fills, f);
    HeldAfterFill(s.account, c.broker.commissionPerTrade, f);
    BoundedAfter(Held(s.account).quantity, Signed(f), c.risk.maxPositionSize as real, c.positionSize);
    SumAppend(s.pnls, Held(a).realizedPnl - Held(s.account).realizedPnl);
  }

  lemma FrictionHasFiveDecimals(c: BrokerModel.BrokerConfig, draw: nat, side: OrderSide, base: real)
    ensures Round5(BrokerModel.Friction(c, draw, side, base)) == BrokerModel.Friction(c, draw, side, base)
  {
    hide Round5;
    Round5Fixed(if side == Buy then base + c.spread / 2.0 + c.slip(draw) else base - c.spread / 2.0 - c.slip(draw));
  }

  /** Main result: at every bar of every run the position is bounded and every copy of it agrees. */
  lemma {:induction false} RunIsConsistent(c: SimpleConfig, capital: real, inputs: seq<Input>)
    requires c.risk.enabled && c.positionSize > 0.0 && c.risk.maxPositionSize >= 0
    ensures Consistent(c, capital, Run(c, capital, inputs))
  {
    hide Execute, Verdict;
    if inputs != [] {
      var s, x := Run(c, capital, inputs[..|inputs|-1]), inputs[|inputs|-1];
      RunIsConsistent(c, capital, inputs[..|inputs|-1]);
      if x.signal.Some? && Verdict(c.risk, c.killSwitch, RiskCase(s, x, x.signal.value)) == Approved {
        ApprovedIsSmall(c, s, x, x.signal.value);
        ExecuteKeeps(c, capital, s, x, x.signal.value);
      }
    }
  }

  /** Every run's equity is its cash ledger up to the rounding slack of its averaging fills. */
  lemma RunEquityIsLedger(c: SimpleConfig, capital: real, inputs: seq<Input>, close: real)
    requires c.risk.enabled && c.positionSize > 0.0 && c.risk.maxPositionSize >= 0
    ensures var s := Run(c, capital, inputs);
      Within(Equity(s.account, close), capital - s.account.commission + LedgerValue(s.fills, close),
             RoundingSlack(s.fills))
  {
    hide Run;
    RunIsConsistent(c, capital, inputs);
    AverageCostRefinesLedger(capital, c.broker.commissionPerTrade, Run(c, capital, inputs).fills, close);
  }
}
