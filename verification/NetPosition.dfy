/** The broker's simple mode: one net position at average cost, against a plain cash ledger. */
module NetPosition {
  import opened Market
  import opened Rounding

  datatype Position = Position(quantity: real, averageCost: real, realizedPnl: real)

  /** `position` is None until the first fill. */
  datatype Account = Account(capital: real, commission: real, position: Option<Position>)

  datatype Fill = Fill(side: OrderSide, quantity: real, price: real)

  function MinReal(x: real, y: real): real {
    if x <= y then x else y
  }

  function Held(a: Account): Position {
    if a.position.Some? then a.position.value else Position(0.0, 0.0, 0.0)
  }

  function Signed(f: Fill): real {
    if f.side == Buy then f.quantity else -f.quantity
  }

  /** The quantity of the old position that a fill closes. */
  function ClosedQuantity(p: Position, f: Fill): real {
    if f.side == Buy && p.quantity < 0.0 then MinReal(f.quantity, -p.quantity)
    else if f.side == Sell && p.quantity > 0.0 then MinReal(f.quantity, p.quantity)
    else 0.0
  }

  /** What closing that quantity realizes. */
  function ClosingPnl(p: Position, f: Fill): real {
    ClosedQuantity(p, f) * (if f.side == Buy then p.averageCost - f.price else f.price - p.averageCost)
  }

  /** The average cost before rounding: averaged when adding, the fill price after a flip, else kept. */
  function NewAverage(p: Position, f: Fill): real {
    if f.side == Buy then
      var quantity := p.quantity + f.quantity;
      if quantity == 0.0 then 0.0
      else if p.quantity >= 0.0 then (p.quantity * p.averageCost + f.quantity * f.price) / quantity
      else if quantity > 0.0 then f.price
      else p.averageCost
    else
      var quantity := p.quantity - f.quantity;
      if quantity == 0.0 then 0.0
      else if p.quantity <= 0.0 then (AbsReal(p.quantity) * p.averageCost + f.quantity * f.price) / AbsReal(quantity)
      else if quantity < 0.0 then f.price
      else p.averageCost
  }

  function UpdatePosition(a: Account, f: Fill): Account {
    var p := Held(a);
    a.(capital := a.capital + ClosingPnl(p, f),
       position := Some(Position(p.quantity + Signed(f), Round5(NewAverage(p, f)),
                                 Round2(p.realizedPnl + ClosingPnl(p, f)))))
  }

  /** A market fill: the commission, then the position. */
  function FillMarket(a: Account, fee: real, f: Fill): Account {
    UpdatePosition(a.(capital := a.capital - fee, commission := a.commission + fee), f)
  }

  function Equity(a: Account, close: real): real {
    a.capital + (if Held(a).quantity != 0.0 then Held(a).quantity * (close - Held(a).averageCost) else 0.0)
  }

  function AfterFills(initial: real, fee: real, fills: seq<Fill>): Account {
    if fills == [] then Account(initial, 0.0, None)
    else FillMarket(AfterFills(initial, fee, fills[..|fills|-1]), fee, fills[|fills|-1])
  }

  // ---- The plain ledger

  /** The sum of signed quantity times (close - fill price). */
  function LedgerValue(fills: seq<Fill>, close: real): real {
    if fills == [] then 0.0
    else LedgerValue(fills[..|fills|-1], close) + Signed(fills[|fills|-1]) * (close - fills[|fills|-1].price)
  }

  function NetQuantity(fills: seq<Fill>): real {
    if fills == [] then 0.0 else NetQuantity(fills[..|fills|-1]) + Signed(fills[|fills|-1])
  }

  /** Only a fill that adds to an open position rounds an average. */
  predicate Averages(quantity: real, f: Fill) {
    (quantity > 0.0 && f.side == Buy) || (quantity < 0.0 && f.side == Sell)
  }

  /** Half a unit of the fifth decimal, per unit of position after an averaging fill. */
  function MoreSlack(quantity: real, f: Fill): real {
    if Averages(quantity, f) then AbsReal(quantity + Signed(f)) * 0.000005 else 0.0
  }

  /** The slack of all the fills. */
  function RoundingSlack(fills: seq<Fill>): real {
    if fills == [] then 0.0
    else
      var init, f := fills[..|fills|-1], fills[|fills|-1];
      RoundingSlack(init) + MoreSlack(NetQuantity(init), f)
  }

  /** How many fills close something. */
  function Closings(fills: seq<Fill>): nat {
    if fills == [] then 0
    else
      var init, f := fills[..|fills|-1], fills[|fills|-1];
      Closings(init) + (if ClosedQuantity(Position(NetQuantity(init), 0.0, 0.0), f) != 0.0 then 1 else 0)
  }

  /** Fills have non-negative quantities and prices of five decimals. */
  ghost predicate Proper(fills: seq<Fill>) {
    forall i :: 0 <= i < |fills| ==> fills[i].quantity >= 0.0 && Round5(fills[i].price) == fills[i].price
  }

  // ---- One fill

  /** The value of the account at a closing price of zero. */
  function Base(a: Account): real {
    a.capital - Held(a).quantity * Held(a).averageCost
  }

  lemma EquityFromBase(a: Account, close: real)
    ensures Equity(a, close) == Base(a) + Held(a).quantity * close
  {
  }

  /** A fill that reduces, flattens or flips moves the base by exactly its own cash. */
  lemma ReducingIsExact(a: Account, f: Fill)
    requires f.quantity >= 0.0 && Round5(f.price) == f.price
    requires Round5(Held(a).averageCost) == Held(a).averageCost
    requires (f.side == Buy && Held(a).quantity < 0.0) || (f.side == Sell && Held(a).quantity > 0.0)
    ensures Base(UpdatePosition(a, f)) == Base(a) - Signed(f) * f.price
  {
    var q, cost, n, price := Held(a).quantity, Held(a).averageCost, f.quantity, f.price;
    assert Round5(0.0) == 0.0 by { RoundInteger(0); }
    if f.side == Buy {
      if n <= -q {
        assert n * (cost - price) == n * cost - n * price;
        assert (q + n) * cost == q * cost + n * cost;
      } else {
        assert -q * (cost - price) == -q * cost + q * price;
        assert (q + n) * price == q * price + n * price;
      }
    } else {
      if n <= q {
        assert n * (price - cost) == n * price - n * cost;
        assert (q - n) * cost == q * cost - n * cost;
      } else {
        assert q * (price - cost) == q * price - q * cost;
        assert (q - n) * price == q * price - n * price;
      }
    }
  }

  lemma OpeningAverage(p: Position, f: Fill)
    requires p.quantity == 0.0 && f.quantity > 0.0
    ensures NewAverage(p, f) == f.price
  {
  }

  /** Opening from flat at a five-decimal price loses nothing. */
  lemma OpeningIsExact(a: Account, f: Fill)
    requires f.quantity >= 0.0 && Round5(f.price) == f.price && Held(a).quantity == 0.0
    ensures Base(UpdatePosition(a, f)) == Base(a) - Signed(f) * f.price
  {
    hide NewAverage, Round5;
    if f.quantity > 0.0 {
      OpeningAverage(Held(a), f);
    }
    assert ClosingPnl(Held(a), f) == 0.0;
  }

  lemma ScaledError(n: real, e: real, bound: real)
    requires -bound <= e <= bound
    ensures -(AbsReal(n) * bound) <= n * e <= AbsReal(n) * bound
  {
  }

  lemma AveragedCost(p: Position, f: Fill)
    requires f.quantity >= 0.0 && Averages(p.quantity, f)
    ensures (p.quantity + Signed(f)) * NewAverage(p, f) == p.quantity * p.averageCost + Signed(f) * f.price
  {
  }

  /** Adding to a position loses at most half a unit of the fifth decimal per unit held. */
  lemma AddingRounds(a: Account, f: Fill)
    requires f.quantity >= 0.0 && Averages(Held(a).quantity, f)
    ensures var slack := AbsReal(Held(a).quantity + Signed(f)) * 0.000005;
      Base(a) - Signed(f) * f.price - slack <= Base(UpdatePosition(a, f)) <= Base(a) - Signed(f) * f.price + slack
  {
    hide NewAverage, Round5;
    var p := Held(a);
    AveragedCost(p, f);
    var after, exact := p.quantity + Signed(f), NewAverage(p, f);
    Round5Near(exact);
    ScaledError(after, exact - Round5(exact), 0.000005);
    assert after * (exact - Round5(exact)) == after * exact - after * Round5(exact);
    assert ClosingPnl(p, f) == 0.0;
  }

  // ---- Every sequence of fills

  /** The account holds the net of its fills, with cost and result already rounded. */
  ghost predicate Tracks(a: Account, fills: seq<Fill>) {
    && Held(a).quantity == NetQuantity(fills)
    && Round5(Held(a).averageCost) == Held(a).averageCost
    && Round2(Held(a).realizedPnl) == Held(a).realizedPnl
  }

  lemma {:induction false} AccountTracks(initial: real, fee: real, fills: seq<Fill>)
    ensures Tracks(AfterFills(initial, fee, fills), fills)
  {
    if fills == [] {
      RoundInteger(0);
    } else {
      var init, f := fills[..|fills|-1], fills[|fills|-1];
      AccountTracks(initial, fee, init);
      var p := Held(AfterFills(initial, fee, init));
      Round5Fixed(NewAverage(p, f));
      Round2Fixed(p.realizedPnl + ClosingPnl(p, f));
      hide Round5, Round2, NewAverage, ClosingPnl;
    }
  }

  /** Every fill pays one commission. */
  lemma {:induction false} CommissionPerFill(initial: real, fee: real, fills: seq<Fill>)
    ensures AfterFills(initial, fee, fills).commission == fee * |fills| as real
  {
    hide UpdatePosition;
    if fills != [] {
      CommissionPerFill(initial, fee, fills[..|fills|-1]);
      CommissionKept(AfterFills(initial, fee, fills[..|fills|-1]), fee, fills[|fills|-1]);
      assert fee * |fills| as real == fee * (|fills| - 1) as real + fee;
    }
  }

  lemma CommissionKept(a: Account, fee: real, f: Fill)
    ensures FillMarket(a, fee, f).commission == a.commission + fee
  {
  }

  /** The cash the ledger has paid for its fills. */
  lemma {:induction false} LedgerAtClose(fills: seq<Fill>, close: real)
    ensures LedgerValue(fills, close) == LedgerValue(fills, 0.0) + NetQuantity(fills) * close
  {
    if fills != [] {
      var init, f := fills[..|fills|-1], fills[|fills|-1];
      LedgerAtClose(init, close);
      assert Signed(f) * (close - f.price) == Signed(f) * close + Signed(f) * (0.0 - f.price);
      assert (NetQuantity(init) + Signed(f)) * close == NetQuantity(init) * close + Signed(f) * close;
    }
  }

  ghost predicate Within(x: real, y: real, slack: real) {
    y - slack <= x <= y + slack
  }

  lemma FillStaysWithin(a: Account, fee: real, f: Fill, ledger: real, slack: real)
    requires f.quantity >= 0.0 && Round5(f.price) == f.price && Round5(Held(a).averageCost) == Held(a).averageCost
    requires Within(Base(a), ledger, slack)
    ensures Within(Base(FillMarket(a, fee, f)), ledger - fee - Signed(f) * f.price,
                   slack + MoreSlack(Held(a).quantity, f))
  {
    var a1 := a.(capital := a.capital - fee, commission := a.commission + fee);
    assert Held(a1) == Held(a) && Base(a1) == Base(a) - fee;
    if Averages(Held(a).quantity, f) {
      AddingRounds(a1, f);
    } else if Held(a).quantity == 0.0 {
      OpeningIsExact(a1, f);
    } else {
      ReducingIsExact(a1, f);
    }
  }

  lemma LedgerStep(fills: seq<Fill>)
    requires fills != []
    ensures var init, f := fills[..|fills|-1], fills[|fills|-1];
      && LedgerValue(fills, 0.0) == LedgerValue(init, 0.0) - Signed(f) * f.price
      && RoundingSlack(fills) == RoundingSlack(init) + MoreSlack(NetQuantity(init), f)
  {
  }

  /** The cash of an account, against the ledger of its fills. */
  ghost predicate Tracked(initial: real, a: Account, fills: seq<Fill>) {
    Within(Base(a), initial - a.commission + LedgerValue(fills, 0.0), RoundingSlack(fills))
  }

  lemma OneMoreTracked(initial: real, a: Account, fee: real, fills: seq<Fill>)
    requires fills != [] && Tracked(initial, a, fills[..|fills|-1])
    requires var f := fills[|fills|-1];
      && f.quantity >= 0.0 && Round5(f.price) == f.price && Round5(Held(a).averageCost) == Held(a).averageCost
      && Held(a).quantity == NetQuantity(fills[..|fills|-1])
    ensures Tracked(initial, FillMarket(a, fee, fills[|fills|-1]), fills)
  {
    hide FillMarket, MoreSlack, Base, Held, Round5, NetQuantity;
    var init, f := fills[..|fills|-1], fills[|fills|-1];
    LedgerStep(fills);
    CommissionKept(a, fee, f);
    FillStaysWithin(a, fee, f, initial - a.commission + LedgerValue(init, 0.0), RoundingSlack(init));
    hide LedgerValue, RoundingSlack, Within;
    var a' := FillMarket(a, fee, f);
    assert initial - a'.commission + LedgerValue(fills, 0.0)
        == initial - a.commission + LedgerValue(init, 0.0) - fee - Signed(f) * f.price;
  }

  lemma {:induction false} BaseWithinSlack(initial: real, fee: real, fills: seq<Fill>)
    requires Proper(fills)
    ensures Tracked(initial, AfterFills(initial, fee, fills), fills)
  {
    if fills != [] {
      hide FillMarket, Tracked;
      assert Proper(fills[..|fills|-1]);
      BaseWithinSlack(initial, fee, fills[..|fills|-1]);
      AccountTracks(initial, fee, fills[..|fills|-1]);
      OneMoreTracked(initial, AfterFills(initial, fee, fills[..|fills|-1]), fee, fills);
    }
  }

  /** Main result: average-cost equity is the cash ledger, up to the rounding of the averaging fills. */
  lemma AverageCostRefinesLedger(initial: real, fee: real, fills: seq<Fill>, close: real)
    requires Proper(fills)
    ensures var a := AfterFills(initial, fee, fills);
      Within(Equity(a, close), initial - a.commission + LedgerValue(fills, close), RoundingSlack(fills))
  {
    hide AfterFills, LedgerValue, RoundingSlack;
    BaseWithinSlack(initial, fee, fills);
    AccountTracks(initial, fee, fills);
    EquityFromBase(AfterFills(initial, fee, fills), close);
    LedgerAtClose(fills, close);
    hide Equity, Base;
  }

  /** Main result: the reported realized result drifts from capital by at most half a cent per closing fill. */
  lemma {:induction false} RealizedTracksCapital(initial: real, fee: real, fills: seq<Fill>)
    ensures var a := AfterFills(initial, fee, fills);
      Within(Held(a).realizedPnl, a.capital - initial + a.commission, 0.005 * Closings(fills) as real)
  {
    if fills != [] {
      var init, f := fills[..|fills|-1], fills[|fills|-1];
      RealizedTracksCapital(initial, fee, init);
      AccountTracks(initial, fee, init);
      var p := Held(AfterFills(initial, fee, init));
      Round2Near(p.realizedPnl + ClosingPnl(p, f));
      if ClosedQuantity(p, f) == 0.0 {
        assert ClosingPnl(p, f) == 0.0;
      }
    }
  }
}
