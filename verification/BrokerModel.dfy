/** The simulated broker in grid mode as a state machine on values. */
module BrokerModel {
  import opened Market
  import opened Rounding

  /** `slip(n)` is the n-th draw of the random generator. */
  datatype BrokerConfig = BrokerConfig(spread: real, commissionPerTrade: real, slip: nat -> real)

  /** An entry of one of the broker's lists; the runner stamps its grid key after placement. */
  datatype Booked<+T> = Booked(id: nat, gridKey: Option<Key>, terms: T)

  datatype OrderTerms = OrderTerms(side: OrderSide, quantity: real, limitPrice: real, stopLoss: real, isStop: bool)

  datatype TradeTerms = TradeTerms(side: OrderSide, quantity: real, openPrice: real, stopLoss: real)

  type PendingOrder = Booked<OrderTerms>

  type OpenTrade = Booked<TradeTerms>

  datatype CloseReason = StopLossHit | MarketClose

  datatype ClosedTrade = ClosedTrade(id: nat, closePrice: real, pnl: real, reason: CloseReason)

  /** `closed` is the closed-trade dictionary in insertion order; `nextId` the next fresh id. */
  datatype Broker = Broker(
    capital: real, commission: real, openTrades: seq<OpenTrade>, pending: seq<PendingOrder>,
    closed: seq<ClosedTrade>, nextId: nat, draws: nat)

  function InitialBroker(capital: real): Broker {
    Broker(capital, 0.0, [], [], [], 0, 0)
  }

  /** A fill price: half the spread and the slippage always go against the order. */
  function Friction(c: BrokerConfig, draw: nat, side: OrderSide, base: real): real {
    if side == Buy then Round5(base + c.spread / 2.0 + c.slip(draw))
    else Round5(base - c.spread / 2.0 - c.slip(draw))
  }

  function GrossPnl(side: OrderSide, quantity: real, openPrice: real, price: real): real {
    if side == Buy then quantity * (price - openPrice) else quantity * (openPrice - price)
  }

  // ---- Orders

  function PlacePending(b: Broker, side: OrderSide, quantity: real, price: real, stopLoss: real, isStop: bool): Broker {
    b.(pending := b.pending + [Booked(b.nextId, None, OrderTerms(side, quantity, price, stopLoss, isStop))],
       nextId := b.nextId + 1)
  }

  /** A fill opens one trade at a price, pays the commission and uses one draw. */
  function OpenAt(c: BrokerConfig, b: Broker, side: OrderSide, quantity: real, price: real, stopLoss: real,
                  gridKey: Option<Key>): Broker {
    b.(openTrades := b.openTrades + [Booked(b.nextId, gridKey, TradeTerms(side, quantity, price, stopLoss))],
       capital := b.capital - c.commissionPerTrade, commission := b.commission + c.commissionPerTrade,
       nextId := b.nextId + 1, draws := b.draws + 1)
  }

  function FillMarket(c: BrokerConfig, b: Broker, bar: Bar, side: OrderSide, quantity: real, stopLoss: real): Broker {
    OpenAt(c, b, side, quantity, Friction(c, b.draws, side, bar.close), stopLoss, None)
  }

  /** Writes a grid key onto the entry with an id. */
  function Stamp<T>(entries: seq<Booked<T>>, id: nat, k: Key): seq<Booked<T>> {
    if entries == [] then []
    else if entries[0].id == id then [entries[0].(gridKey := Some(k))] + entries[1..]
    else [entries[0]] + Stamp(entries[1..], id, k)
  }

  /** Drops the first entry with an id. */
  function RemoveById<T>(entries: seq<Booked<T>>, id: nat): seq<Booked<T>> {
    if entries == [] then []
    else if entries[0].id == id then entries[1..]
    else [entries[0]] + RemoveById(entries[1..], id)
  }

  // ---- Closing

  /** A trade leaves the book at a price: its rounded result goes to capital and to the closed trades. */
  function Settle(b: Broker, t: OpenTrade, price: real, reason: CloseReason): Broker {
    var pnl := Round2(GrossPnl(t.terms.side, t.terms.quantity, t.terms.openPrice, price));
    b.(capital := b.capital + pnl, closed := b.closed + [ClosedTrade(t.id, price, pnl, reason)],
       openTrades := RemoveFirst(b.openTrades, t), draws := b.draws + 1)
  }

  function FindTrade(trades: seq<OpenTrade>, id: nat): (r: Option<OpenTrade>)
    ensures r.Some? ==> r.value in trades && r.value.id == id
    ensures r.None? ==> forall t :: t in trades ==> t.id != id
  {
    if trades == [] then None
    else if trades[0].id == id then Some(trades[0])
    else FindTrade(trades[1..], id)
  }

  /** The latest closed trade with an id, as in a dictionary. */
  function Lookup(closed: seq<ClosedTrade>, id: nat): Option<ClosedTrade> {
    if closed == [] then None
    else if closed[|closed|-1].id == id then Some(closed[|closed|-1])
    else Lookup(closed[..|closed|-1], id)
  }

  function CloseAtMarket(c: BrokerConfig, b: Broker, bar: Bar, t: OpenTrade): Broker {
    Settle(b, t, Friction(c, b.draws, Opposite(t.terms.side), bar.close), MarketClose)
  }

  /** None is the error for an unknown trade. */
  function CloseTrade(c: BrokerConfig, b: Broker, bar: Bar, id: nat): Option<Broker> {
    match FindTrade(b.openTrades, id)
    case None => None
    case Some(t) => Some(CloseAtMarket(c, b, bar, t))
  }

  // ---- A bar

  predicate StopHit(t: OpenTrade, bar: Bar) {
    if t.terms.side == Buy then bar.low <= t.terms.stopLoss else bar.high >= t.terms.stopLoss
  }

  function StoppedOut(trades: seq<OpenTrade>, bar: Bar): seq<OpenTrade> {
    if trades == [] then []
    else
      var rest := StoppedOut(trades[..|trades|-1], bar);
      if StopHit(trades[|trades|-1], bar) then rest + [trades[|trades|-1]] else rest
  }

  /** The exit price of a stop before friction: a gap fills at the worse open. */
  function StopBase(t: OpenTrade, bar: Bar): real {
    if t.terms.side == Buy then (if bar.open < t.terms.stopLoss then bar.open else t.terms.stopLoss)
    else (if bar.open > t.terms.stopLoss then bar.open else t.terms.stopLoss)
  }

  function StopOut(c: BrokerConfig, b: Broker, bar: Bar, t: OpenTrade): Broker {
    Settle(b, t, Friction(c, b.draws, Opposite(t.terms.side), StopBase(t, bar)), StopLossHit)
  }

  function StopOuts(c: BrokerConfig, b: Broker, bar: Bar, trades: seq<OpenTrade>): Broker {
    if trades == [] then b
    else StopOut(c, StopOuts(c, b, bar, trades[..|trades|-1]), bar, trades[|trades|-1])
  }

  predicate Touched(p: PendingOrder, bar: Bar) {
    if p.terms.isStop then (if p.terms.side == Buy then bar.high >= p.terms.limitPrice
                            else bar.low <= p.terms.limitPrice)
    else (if p.terms.side == Buy then bar.low <= p.terms.limitPrice else bar.high >= p.terms.limitPrice)
  }

  function Triggered(orders: seq<PendingOrder>, bar: Bar): seq<PendingOrder> {
    if orders == [] then []
    else
      var rest := Triggered(orders[..|orders|-1], bar);
      if Touched(orders[|orders|-1], bar) then rest + [orders[|orders|-1]] else rest
  }

  function FillBase(p: PendingOrder, bar: Bar): real {
    if !p.terms.isStop then p.terms.limitPrice
    else if p.terms.side == Buy then (if bar.open > p.terms.limitPrice then bar.open else p.terms.limitPrice)
    else (if bar.open < p.terms.limitPrice then bar.open else p.terms.limitPrice)
  }

  function FillOrder(c: BrokerConfig, b: Broker, bar: Bar, p: PendingOrder): Broker {
    OpenAt(c, b, p.terms.side, p.terms.quantity, Friction(c, b.draws, p.terms.side, FillBase(p, bar)),
           p.terms.stopLoss, p.gridKey)
      .(pending := RemoveFirst(b.pending, p))
  }

  function FillOrders(c: BrokerConfig, b: Broker, bar: Bar, orders: seq<PendingOrder>): Broker {
    if orders == [] then b
    else FillOrder(c, FillOrders(c, b, bar, orders[..|orders|-1]), bar, orders[|orders|-1])
  }

  function AfterStops(c: BrokerConfig, b: Broker, bar: Bar): Broker {
    StopOuts(c, b, bar, StoppedOut(b.openTrades, bar))
  }

  /** Stops first, then entries. */
  function ProcessBar(c: BrokerConfig, b: Broker, bar: Bar): Broker {
    var b1 := AfterStops(c, b, bar);
    FillOrders(c, b1, bar, Triggered(b1.pending, bar))
  }

  /** The trades opened by the bar. */
  function NewFills(c: BrokerConfig, b: Broker, bar: Bar): seq<OpenTrade> {
    Drop(ProcessBar(c, b, bar).openTrades, |AfterStops(c, b, bar).openTrades|)
  }

  /** The trades closed by the bar. */
  function NewClosures(c: BrokerConfig, b: Broker, bar: Bar): seq<ClosedTrade> {
    Drop(ProcessBar(c, b, bar).closed, |b.closed|)
  }

  // ---- Valuation

  function Unrealized(trades: seq<OpenTrade>, price: real): real {
    if trades == [] then 0.0
    else
      var t := trades[|trades|-1];
      Unrealized(trades[..|trades|-1], price) + GrossPnl(t.terms.side, t.terms.quantity, t.terms.openPrice, price)
  }

  function Equity(b: Broker, bar: Bar): real {
    b.capital + Unrealized(b.openTrades, bar.close)
  }

  function Pnls(closed: seq<ClosedTrade>): seq<real> {
    if closed == [] then [] else Pnls(closed[..|closed|-1]) + [closed[|closed|-1].pnl]
  }
}
