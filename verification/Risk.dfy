/** The risk gate between a signal and an order. */
module Risk {
  import opened Market

  datatype RiskConfig = RiskConfig(
    enabled: bool, maxPositionSize: int, maxDailyLoss: real, maxTradesPerDay: int, requireStopLoss: bool,
    riskPerTrade: real, maxDrawdownPct: real, maxConsecutiveLosses: nat)

  /** A position as the repository keeps it. */
  datatype PositionView = PositionView(quantity: real, realizedPnl: real, unrealizedPnl: real)

  datatype Rule = StopLossRule | DrawdownRule | LossStreakRule | PositionSizeRule | DailyLossRule | FrequencyRule

  datatype Decision = Approved | KillSwitch | Rejected(rule: Rule)

  /** What the gate is shown. */
  datatype Case = Case(stopLoss: Option<real>, position: Option<PositionView>, tradesToday: nat,
                       equity: real, peakEquity: real, pnls: seq<real>)

  /** Python's `pnls[-n:]`; with n = 0 that is the whole list. */
  function Tail(pnls: seq<real>, n: nat): seq<real> {
    if n == 0 || |pnls| <= n then pnls else pnls[|pnls| - n..]
  }

  predicate AllLosses(pnls: seq<real>) {
    forall i :: 0 <= i < |pnls| ==> pnls[i] < 0.0
  }

  function Quantity(position: Option<PositionView>): real {
    if position.Some? then position.value.quantity else 0.0
  }

  /** Whether a rule turns the case down. */
  predicate Breaks(c: RiskConfig, x: Case, rule: Rule) {
    match rule
    case StopLossRule => c.requireStopLoss && x.stopLoss.None?
    case DrawdownRule => x.peakEquity > 0.0 && (x.peakEquity - x.equity) / x.peakEquity >= c.maxDrawdownPct
    case LossStreakRule =>
      |Tail(x.pnls, c.maxConsecutiveLosses)| >= c.maxConsecutiveLosses
        && AllLosses(Tail(x.pnls, c.maxConsecutiveLosses))
    case PositionSizeRule => AbsReal(Quantity(x.position)) >= c.maxPositionSize as real
    case DailyLossRule =>
      (if x.position.Some? then x.position.value.realizedPnl + x.position.value.unrealizedPnl
       else 0.0) <= -c.maxDailyLoss
    case FrequencyRule => x.tradesToday >= c.maxTradesPerDay
  }

  const PRIORITY: seq<Rule> := [StopLossRule, DrawdownRule, LossStreakRule, PositionSizeRule, DailyLossRule,
                                FrequencyRule]

  class RiskEngine {
    const config: RiskConfig
    var killSwitch: bool

    constructor (config: RiskConfig, killSwitch: bool)
      ensures this.config == config && this.killSwitch == killSwitch
    {
      this.config := config;
      this.killSwitch := killSwitch;
    }

    method SetKillSwitch(value: bool)
      modifies this
      ensures killSwitch == value
    {
      killSwitch := value;
    }

    /** The rules in order; the first one broken wins. */
    method Evaluate(x: Case) returns (d: Decision)
      ensures d == Verdict(config, killSwitch, x)
    {
      if !config.enabled {
        return Approved;
      }
      if killSwitch {
        return KillSwitch;
      }
      if config.requireStopLoss && x.stopLoss.None? {
        return Rejected(StopLossRule);
      }
      if x.peakEquity > 0.0 {
        var drawdownPct := (x.peakEquity - x.equity) / x.peakEquity;
        if drawdownPct >= config.maxDrawdownPct {
          return Rejected(DrawdownRule);
        }
      }
      var tail := Tail(x.pnls, config.maxConsecutiveLosses);
      if |tail| >= config.maxConsecutiveLosses && AllLosses(tail) {
        return Rejected(LossStreakRule);
      }
      if AbsReal(Quantity(x.position)) >= config.maxPositionSize as real {
        return Rejected(PositionSizeRule);
      }
      var dailyPnl := 0.0;
      if x.position.Some? {
        dailyPnl := x.position.value.realizedPnl + x.position.value.unrealizedPnl;
      }
      if dailyPnl <= -config.maxDailyLoss {
        return Rejected(DailyLossRule);
      }
      if x.tradesToday >= config.maxTradesPerDay {
        return Rejected(FrequencyRule);
      }
      return Approved;
    }
  }

  function Verdict(c: RiskConfig, killSwitch: bool, x: Case): Decision {
    if !c.enabled then Approved
    else if killSwitch then KillSwitch
    else if Breaks(c, x, StopLossRule) then Rejected(StopLossRule)
    else if Breaks(c, x, DrawdownRule) then Rejected(DrawdownRule)
    else if Breaks(c, x, LossStreakRule) then Rejected(LossStreakRule)
    else if Breaks(c, x, PositionSizeRule) then Rejected(PositionSizeRule)
    else if Breaks(c, x, DailyLossRule) then Rejected(DailyLossRule)
    else if Breaks(c, x, FrequencyRule) then Rejected(FrequencyRule)
    else Approved
  }

  /** A case passes exactly when no rule is broken; otherwise the first broken rule is named. */
  lemma FirstBrokenRuleWins(c: RiskConfig, killSwitch: bool, x: Case)
    ensures Verdict(c, killSwitch, x) == Approved <==> !c.enabled || (!killSwitch && forall rule :: !Breaks(c, x, rule))
    ensures Verdict(c, killSwitch, x) == KillSwitch <==> c.enabled && killSwitch
    ensures var d := Verdict(c, killSwitch, x);
      d.Rejected? ==> exists i :: 0 <= i < |PRIORITY| && PRIORITY[i] == d.rule && Breaks(c, x, d.rule)
                                  && forall j :: 0 <= j < i ==> !Breaks(c, x, PRIORITY[j])
  {
    var d := Verdict(c, killSwitch, x);
    if d.Rejected? {
      var i := match d.rule
        case StopLossRule => 0
        case DrawdownRule => 1
        case LossStreakRule => 2
        case PositionSizeRule => 3
        case DailyLossRule => 4
        case FrequencyRule => 5;
      assert PRIORITY[i] == d.rule;
    } else if c.enabled && !killSwitch {
      forall rule ensures !Breaks(c, x, rule) {
        match rule
        case StopLossRule =>
        case DrawdownRule =>
        case LossStreakRule =>
        case PositionSizeRule =>
        case DailyLossRule =>
        case FrequencyRule =>
      }
    }
  }

  /** Units from the money at risk and the distance of the stop; zero when they cannot be sized. */
  function PositionSize(c: RiskConfig, stopLoss: Option<real>, equity: real, entry: real): real {
    if stopLoss.None? || AbsReal(entry - stopLoss.value) == 0.0 then 0.0
    else
      var units := equity * c.riskPerTrade / AbsReal(entry - stopLoss.value);
      if units <= c.maxPositionSize as real then units else c.maxPositionSize as real
  }
}
