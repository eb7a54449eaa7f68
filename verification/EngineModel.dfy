/**
 The live trading engine as a state machine on values. What the broker, the strategy and the
 clock answer during a call is a parameter of that call, so every answer is possible; what the
 engine asks of the broker and tells the strategy is kept as a trace.
 */
module EngineModel {
  import opened Market
  import opened Rounding

  // ---- What the outside answers. An id of zero stands for the empty text.

  const NO_ID: nat := 0

  datatype LiveTrade = LiveTrade(id: nat, side: OrderSide, openPrice: real)

  datatype OrderAnswer = Refused | Accepted(id: nat, price: real, immediate: bool)

  /** A close may succeed without its response naming the realized result. */
  datatype CloseAnswer = Failed | Done(pnl: Option<real>)

  datatype Summary = Summary(balance: real, unrealized: real)

  // ---- What the engine does to the outside

  datatype Event =
    | ReadTrades(count: Option<nat>)
    | ReadOrders
    | ReadSummary
    | Place(side: OrderSide, units: real, orderType: OrderType, limitPrice: Option<real>, stop: Option<real>)
    | CancelOrder(id: nat)
    | CancelAll
    | CloseTrade(id: nat)
    | TellFilled(key: Key, price: real)
    | TellClosed(key: Key, pnl: real, trim: bool)
    | TellRejected(key: Key)
    | TellUnrealized(pnl: real)
    | TellRealized(session: real, daily: real)
    | TellComplete

  // ---- What the engine holds

  datatype TradeEntry = TradeEntry(key: Key, side: OrderSide, units: real, price: real, stop: Option<real>)

  /** The market order that is to follow a fill. */
  datatype OppositeLeg = OppositeLeg(side: OrderSide, key: Key, stop: Option<real>)

  datatype Meta = Meta(units: real, restingUnits: real, restingStop: Option<real>, opposite: Option<OppositeLeg>)

  datatype RowKind = StopOut | Trim | SessionClose

  datatype Basis = StopPrice | LastPrice | Exact | Unknown

  datatype Row = Row(kind: RowKind, pnl: Option<real>, basis: Basis, key: Option<Key>, id: nat)

  /** `trades` and `orders` map grid keys to broker ids, `entries` trade ids to what was entered. */
  datatype Desk = Desk(
    trades: map<Key, nat>, entries: map<nat, TradeEntry>, orders: map<Key, nat>, meta: map<Key, Meta>,
    ledger: seq<Row>, pnls: seq<real>, trace: seq<Event>)

  /** The circuit breaker of the close-all; the clock counts seconds. */
  datatype Breaker = Breaker(failures: nat, retryAt: Option<real>, running: bool)

  datatype Session = Session(number: nat, reason: string, closed: nat, pnl: real)

  datatype Money = Money(
    runStart: Option<real>, sessionStart: Option<real>, dayStart: Option<real>, day: string,
    last: Option<real>, gridLogged: bool, history: seq<Session>, readFailures: nat)

  datatype Engine = Engine(desk: Desk, breaker: Breaker, money: Money, lastPrice: Option<real>)

  /** `order` lists a set of keys in the order in which a dictionary is walked. */
  datatype EngineConfig = EngineConfig(
    maxUnits: Option<real>, maxOpenTrades: nat, hasSummary: bool, order: set<Key> -> seq<Key>)

  const MAX_CLOSE_ALL_RETRIES: nat := 5
  const CLOSE_ALL_BASE_BACKOFF: nat := 10
  const MAX_BALANCE_READ_FAILURES: nat := 3
  const MAX_DRAIN: nat := 50

  function Log(d: Desk, e: Event): Desk {
    d.(trace := d.trace + [e])
  }

  function Capped(c: EngineConfig, units: real): real {
    if c.maxUnits.Some? && c.maxUnits.value < units then c.maxUnits.value else units
  }

  function Mapped(d: Desk, id: nat, e: TradeEntry): Desk {
    d.(trades := d.trades[e.key := id], entries := if id == NO_ID then d.entries else d.entries[id := e])
  }

  // ---- Fills

  function Distance(t: LiveTrade, price: real): real {
    AbsReal(t.openPrice - price)
  }

  /** The first trade of a side at the least distance from a price. */
  function Nearest(trades: seq<LiveTrade>, side: OrderSide, price: real): (r: Option<nat>)
    ensures r.Some? ==> r.value < |trades| && trades[r.value].side == side
  {
    if trades == [] then None
    else
      var best := Nearest(trades[..|trades|-1], side, price);
      var last := trades[|trades|-1];
      if last.side == side && (best.None? || Distance(last, price) < Distance(trades[best.value], price))
      then Some(|trades| - 1) else best
  }

  function Without<T>(s: seq<T>, i: nat): seq<T>
    requires i < |s|
  {
    s[..i] + s[i + 1..]
  }

  /** The open trades that no key is mapped to. */
  function Unmapped(open: seq<LiveTrade>, known: set<nat>): seq<LiveTrade> {
    if open == [] then []
    else
      var rest := Unmapped(open[..|open|-1], known);
      if open[|open|-1].id in known then rest else rest + [open[|open|-1]]
  }

  function PlaceOpposite(c: EngineConfig, d: Desk, k: Key, answer: OrderAnswer): Desk {
    if k !in d.meta then d
    else
      var m, d1 := d.meta[k], d.(meta := d.meta - {k});
      match m.opposite
      case None => d1
      case Some(leg) => FillOpposite(d1, leg, Capped(c, m.units), answer)
  }

  function FillOpposite(d: Desk, leg: OppositeLeg, units: real, answer: OrderAnswer): Desk {
    var d1 := Log(d, Place(leg.side, units, OrderType.Market, None, leg.stop));
    match answer
    case Refused => d1
    case Accepted(id, price, _) =>
      Log(if id == NO_ID then d1 else Mapped(d1, id, TradeEntry(leg.key, leg.side, units, price, leg.stop)),
          TellFilled(leg.key, price))
  }

  /** The desk and the unmapped trades that are still to be matched. */
  datatype Matching = Matching(desk: Desk, unclaimed: seq<LiveTrade>)

  function EntryFor(d: Desk, k: Key, t: LiveTrade): TradeEntry {
    var side := OrderSideOf(k.side);
    if k in d.meta then TradeEntry(k, side, d.meta[k].restingUnits, t.openPrice, d.meta[k].restingStop)
    else TradeEntry(k, side, 0.0, t.openPrice, None)
  }

  /** A vanished order takes the nearest unmapped trade of its side, or was cancelled. */
  function MatchOne(c: EngineConfig, m: Matching, k: Key, leg: OrderAnswer): Matching {
    var d := m.desk.(orders := m.desk.orders - {k});
    var found := Nearest(m.unclaimed, OrderSideOf(k.side), Price(k.level));
    if found.None? then Matching(Log(d, TellRejected(k)), m.unclaimed)
    else
      var t, rest := m.unclaimed[found.value], Without(m.unclaimed, found.value);
      if t.id == NO_ID then Matching(Log(d, TellRejected(k)), rest)
      else
        var d1 := Log(Mapped(d, t.id, EntryFor(d, k, t)), TellFilled(k, t.openPrice));
        Matching(PlaceOpposite(c, d1, k, leg), rest)
  }

  function MatchAll(c: EngineConfig, m: Matching, keys: seq<Key>, legs: Key -> OrderAnswer): Matching {
    if keys == [] then m
    else
      var k := keys[|keys|-1];
      MatchOne(c, MatchAll(c, m, keys[..|keys|-1], legs), k, legs(k))
  }

  /** The keys whose order no longer rests at the broker. */
  function Gone(orders: map<Key, nat>, resting: set<nat>): set<Key> {
    set k | k in orders && orders[k] !in resting
  }

  function CheckLimitFills(c: EngineConfig, d: Desk, open: seq<LiveTrade>, resting: Option<set<nat>>,
                           legs: Key -> OrderAnswer): Desk {
    if d.orders == map[] then d
    else
      var d1 := Log(d, ReadOrders);
      if resting.None? then d1
      else MatchAll(c, Matching(d1, Unmapped(open, d.trades.Values)), c.order(Gone(d.orders, resting.value)), legs).desk
  }

  // ---- Closures

  function Gain(e: TradeEntry, exit: real): real {
    if e.side == Buy then (exit - e.price) * e.units else (e.price - exit) * e.units
  }

  /** A stopped-out trade is valued at its stop, else at the last price, else not at all. */
  function RealizedFromEntry(e: TradeEntry, lastPrice: Option<real>): Option<real> {
    var exit := if e.stop.Some? then e.stop else lastPrice;
    match exit
    case None => None
    case Some(price) => Some(Gain(e, price))
  }

  function OrZero(x: Option<real>): real {
    if x.Some? then x.value else 0.0
  }

  function StopOutRow(d: Desk, k: Key, id: nat, lastPrice: Option<real>): Row {
    var known := id in d.entries;
    Row(StopOut, if known then RealizedFromEntry(d.entries[id], lastPrice) else None,
        if known && d.entries[id].stop.Some? then StopPrice else if lastPrice.Some? then LastPrice else Unknown,
        Some(k), id)
  }

  function CloseOut(d: Desk, k: Key, lastPrice: Option<real>): Desk {
    if k !in d.trades then d
    else
      var id := d.trades[k];
      var row := StopOutRow(d, k, id, lastPrice);
      Log(d.(trades := d.trades - {k}, entries := d.entries - {id}, ledger := d.ledger + [row],
             pnls := if row.pnl.Some? then d.pnls + [row.pnl.value] else d.pnls),
          TellClosed(k, OrZero(row.pnl), false))
  }

  function CloseOutAll(d: Desk, keys: seq<Key>, lastPrice: Option<real>): Desk {
    if keys == [] then d
    else CloseOut(CloseOutAll(d, keys[..|keys|-1], lastPrice), keys[|keys|-1], lastPrice)
  }

  function OpenIds(open: seq<LiveTrade>): set<nat> {
    set t | t in open :: t.id
  }

  /** The keys whose trade the snapshot does not show, but for those mapped after it was taken. */
  function Vanished(trades: map<Key, nat>, open: set<nat>, skip: set<nat>): set<Key> {
    set k | k in trades && trades[k] !in skip && trades[k] !in open
  }

  function CheckClosures(c: EngineConfig, d: Desk, open: seq<LiveTrade>, skip: set<nat>,
                         lastPrice: Option<real>): Desk {
    if d.trades == map[] then d
    else CloseOutAll(d, c.order(Vanished(d.trades, OpenIds(open), skip)), lastPrice)
  }

  // ---- Trims

  function BankedPnls(pnls: seq<real>, pnl: Option<real>): seq<real> {
    if pnl.Some? && pnl.value != 0.0 then pnls + [pnl.value] else pnls
  }

  function ExactRow(kind: RowKind, pnl: Option<real>, key: Option<Key>, id: nat): Row {
    Row(kind, pnl, if pnl.Some? then Exact else Unknown, key, id)
  }

  function CancelAt(d: Desk, k: Key): Desk {
    if k !in d.orders then d
    else Log(d.(orders := d.orders - {k}, meta := d.meta - {k}), CancelOrder(d.orders[k]))
  }

  function TrimLevel(d: Desk, k: Key, answer: CloseAnswer): Desk {
    var d1 := CancelAt(d, k);
    if k !in d1.trades then d1
    else
      var id := d1.trades[k];
      var d2 := Log(d1, CloseTrade(id));
      match answer
      case Failed => d2
      case Done(pnl) =>
        Log(d2.(trades := d2.trades - {k}, entries := d2.entries - {id}, pnls := BankedPnls(d2.pnls, pnl),
                ledger := d2.ledger + [ExactRow(Trim, pnl, Some(k), id)]),
            TellClosed(k, OrZero(pnl), true))
  }

  function TrimLevels(d: Desk, keys: seq<Key>, closes: Key -> CloseAnswer): Desk {
    if keys == [] then d
    else TrimLevel(TrimLevels(d, keys[..|keys|-1], closes), keys[|keys|-1], closes(keys[|keys|-1]))
  }

  // ---- The fast poll

  /** `levels` are the keys the strategy wants closed. A read that fails answers None. */
  datatype PollAnswers = PollAnswers(
    open: Option<seq<LiveTrade>>, resting: Option<set<nat>>, legs: Key -> OrderAnswer,
    levels: seq<Key>, closes: Key -> CloseAnswer)

  function CountOf(open: Option<seq<LiveTrade>>): Option<nat> {
    if open.Some? then Some(|open.value|) else None
  }

  /** Fills and closures of one snapshot. */
  function Reconcile(c: EngineConfig, d: Desk, open: seq<LiveTrade>, lastPrice: Option<real>, p: PollAnswers): Desk {
    var d1 := CheckLimitFills(c, d, open, p.resting, p.legs);
    CheckClosures(c, d1, open, d1.trades.Values - d.trades.Values, lastPrice)
  }

  function FastPoll(c: EngineConfig, d: Desk, lastPrice: Option<real>, p: PollAnswers): Desk {
    var d1 := Log(d, ReadTrades(CountOf(p.open)));
    if p.open.None? then d1
    else TrimLevels(Reconcile(c, d1, p.open.value, lastPrice, p), p.levels, p.closes)
  }

  // ---- Close-all

  /**
   `cancelled` says whether the cancelling of all orders worked, which the engine only logs; `close(i)` answers the
   close of the i-th open trade; `later` is the clock after the closes.
   */
  datatype Attempt = Attempt(
    now: real, later: real, cancelled: bool, open: Option<seq<LiveTrade>>, close: nat -> CloseAnswer,
    remaining: Option<nat>, balance: Option<real>, tally: real)

  datatype Outcome = Broken | Waiting | Unread | NothingOpen | SomeFailed | RemainderUnread | Residual | Flat

  function FailedCloses(n: nat, close: nat -> CloseAnswer): nat {
    if n == 0 then 0 else FailedCloses(n - 1, close) + if close(n - 1) == Failed then 1 else 0
  }

  function OutcomeOf(b: Breaker, a: Attempt): Outcome {
    if b.failures >= MAX_CLOSE_ALL_RETRIES then Broken
    else if b.retryAt.Some? && a.now < b.retryAt.value then Waiting
    else if a.open.None? then Unread
    else if a.open.value == [] then NothingOpen
    else if FailedCloses(|a.open.value|, a.close) > 0 then SomeFailed
    else if a.remaining.None? then RemainderUnread
    else if a.remaining.value != 0 then Residual
    else Flat
  }

  function Pow2(n: nat): nat {
    if n == 0 then 1 else 2 * Pow2(n - 1)
  }

  /** The wait after the k-th failure. */
  function Backoff(k: nat): nat
    requires k > 0
  {
    CLOSE_ALL_BASE_BACKOFF * Pow2(k - 1)
  }

  function AfterAttempt(b: Breaker, a: Attempt): Breaker {
    match OutcomeOf(b, a)
    case Broken => b.(running := false)
    case Waiting => b
    case Unread => b.(retryAt := None)
    case SomeFailed => b.(failures := b.failures + 1, retryAt := Some(a.later + Backoff(b.failures + 1) as real))
    case RemainderUnread => b.(retryAt := None)
    case Residual => b.(failures := b.failures + 1, retryAt := None)
    case NothingOpen => b.(failures := 0, retryAt := None)
    case Flat => b.(failures := 0, retryAt := None)
  }

  /** Which key holds an id; a later key of the walk wins. */
  function Holders(trades: map<Key, nat>, keys: seq<Key>): map<nat, Key> {
    if keys == [] then map[]
    else
      var rest, k := Holders(trades, keys[..|keys|-1]), keys[|keys|-1];
      if k in trades then rest[trades[k] := k] else rest
  }

  function CloseOne(d: Desk, id: nat, holders: map<nat, Key>, answer: CloseAnswer): Desk {
    var d1 := Log(d, CloseTrade(id));
    match answer
    case Failed => d1
    case Done(pnl) =>
      d1.(ledger := d1.ledger + [ExactRow(SessionClose, pnl, if id in holders then Some(holders[id]) else None, id)],
          pnls := BankedPnls(d1.pnls, pnl))
  }

  function CloseEach(d: Desk, open: seq<LiveTrade>, holders: map<nat, Key>, close: nat -> CloseAnswer): Desk {
    if open == [] then d
    else CloseOne(CloseEach(d, open[..|open|-1], holders, close), open[|open|-1].id, holders, close(|open| - 1))
  }

  function Cleared(d: Desk): Desk {
    d.(trades := map[], entries := map[], orders := map[], meta := map[])
  }

  function DeskAfterAttempt(c: EngineConfig, d: Desk, b: Breaker, a: Attempt): Desk {
    var outcome := OutcomeOf(b, a);
    if outcome == Broken || outcome == Waiting then d
    else
      var d1 := Log(Log(d, CancelAll), ReadTrades(CountOf(a.open)));
      if a.open.None? then d1
      else if outcome == NothingOpen then Log(Cleared(d1), TellComplete)
      else
        var d2 := CloseEach(d1, a.open.value, Holders(d.trades, c.order(d.trades.Keys)), a.close);
        if outcome == SomeFailed then d2
        else
          var d3 := Log(d2, ReadTrades(a.remaining));
          if outcome != Flat then d3
          else
            var d4 := Cleared(d3);
            Log(if c.hasSummary then Log(d4, ReadSummary) else d4, TellComplete)
  }

  /** The result booked for a session: the balance delta, else the strategy's own tally. */
  function SessionPnl(c: EngineConfig, m: Money, a: Attempt): real {
    if c.hasSummary && a.balance.Some? && m.sessionStart.Some? then a.balance.value - m.sessionStart.value else a.tally
  }

  function MoneyAfterAttempt(c: EngineConfig, m: Money, b: Breaker, reason: string, a: Attempt): Money {
    if OutcomeOf(b, a) == Flat then SessionEnded(c, m, reason, a) else m
  }

  /** The session is booked, and the next one starts at the balance just read. */
  function SessionEnded(c: EngineConfig, m: Money, reason: string, a: Attempt): Money
    requires a.open.Some?
  {
    var m1 := if c.hasSummary && a.balance.Some? then m.(last := a.balance, sessionStart := a.balance) else m;
    m1.(history := m.history + [Session(|m.history| + 1, reason, |a.open.value|, SessionPnl(c, m, a))],
        gridLogged := false)
  }

  function CloseAllTrades(c: EngineConfig, e: Engine, reason: string, a: Attempt): Engine {
    Engine(DeskAfterAttempt(c, e.desk, e.breaker, a), AfterAttempt(e.breaker, a),
           MoneyAfterAttempt(c, e.money, e.breaker, reason, a), e.lastPrice)
  }

  // ---- Signals

  /** A signal of the strategy with the opposite leg that its metadata may carry. */
  datatype Wanted = Wanted(signal: Signal, opposite: Option<OppositeLeg>)

  /** `approved` is the risk engine's verdict, `openCount` the number of trades read for the cycle. */
  datatype SignalAnswers = SignalAnswers(
    close: real, openCount: nat, approved: bool, answer: OrderAnswer, leg: OrderAnswer, attempt: Attempt)

  function EntryReference(s: Signal, close: real): real
    requires s.Entry?
  {
    if s.orderType == OrderType.Market then close else s.limitPrice
  }

  /** A stop is on the wrong side when it is not beyond the entry in the losing direction. */
  predicate StopOnWrongSide(s: Signal, close: real)
    requires s.Entry?
  {
    if s.key.side == Long then s.stopLoss >= EntryReference(s, close) else s.stopLoss <= EntryReference(s, close)
  }

  function PlaceResting(c: EngineConfig, d: Desk, w: Wanted, answer: OrderAnswer, leg: OrderAnswer): Desk
    requires w.signal.Entry?
  {
    var s, units := w.signal, Capped(c, w.signal.units);
    var side := OrderSideOf(s.key.side);
    var d1 := Log(d, Place(side, units, s.orderType, Some(s.limitPrice), Some(s.stopLoss)));
    match answer
    case Refused => Log(d1, TellRejected(s.key))
    case Accepted(id, price, immediate) =>
      if immediate then
        var d2 := Log(Mapped(d1, id, TradeEntry(s.key, side, units, price, Some(s.stopLoss))),
                      TellFilled(s.key, price));
        PlaceOpposite(c, d2.(meta := d2.meta[s.key := Meta(s.units, 0.0, None, w.opposite)]), s.key, leg)
      else if id == NO_ID then d1
      else d1.(orders := d1.orders[s.key := id],
               meta := d1.meta[s.key := Meta(s.units, Round5(units), Some(Round5(s.stopLoss)), w.opposite)])
  }

  function PlaceMarket(c: EngineConfig, d: Desk, s: Signal, answer: OrderAnswer): Desk
    requires s.Entry?
  {
    var side, units := OrderSideOf(s.key.side), Capped(c, s.units);
    var d1 := Log(d, Place(side, units, OrderType.Market, None, Some(s.stopLoss)));
    match answer
    case Refused => Log(d1, TellRejected(s.key))
    case Accepted(id, price, _) =>
      Log(if id == NO_ID then d1 else Mapped(d1, id, TradeEntry(s.key, side, units, price, Some(s.stopLoss))),
          TellFilled(s.key, price))
  }

  function ProcessEntry(c: EngineConfig, d: Desk, w: Wanted, a: SignalAnswers): Desk
    requires w.signal.Entry?
  {
    if c.maxOpenTrades > 0 && a.openCount >= c.maxOpenTrades then d
    else if !a.approved || StopOnWrongSide(w.signal, a.close) then Log(d, TellRejected(w.signal.key))
    else if w.signal.orderType == OrderType.Market then PlaceMarket(c, d, w.signal, a.answer)
    else PlaceResting(c, d, w, a.answer, a.leg)
  }

  function ProcessSignal(c: EngineConfig, e: Engine, w: Wanted, a: SignalAnswers): Engine {
    if w.signal.CloseAll? then CloseAllTrades(c, e, w.signal.reason, a.attempt)
    else e.(desk := ProcessEntry(c, e.desk, w, a))
  }

  // ---- The strategy cycle

  /** `summary` is None when the read fails; `anchored` says whether the strategy shows an anchor after its answer. */
  datatype CycleAnswers = CycleAnswers(close: Option<real>, summary: Option<Summary>, today: string, anchored: bool)

  /** A good balance read moves the anchors. */
  function Anchored(m: Money, balance: real, today: string): (r: Money)
    ensures r.sessionStart.Some? && r.dayStart.Some?
  {
    var m1 := m.(last := Some(balance), readFailures := 0,
                 sessionStart := if m.sessionStart.None? then Some(balance) else m.sessionStart);
    if m.dayStart.None? || (m.day != "" && today != m.day) then m1.(dayStart := Some(balance), day := today) else m1
  }

  function PnlTold(d: Desk, m: Money, s: Summary): Desk
    requires m.sessionStart.Some? && m.dayStart.Some?
  {
    Log(Log(Log(d, ReadSummary), TellUnrealized(s.unrealized)),
        TellRealized(s.balance - m.sessionStart.value, s.balance - m.dayStart.value))
  }

  function PushRealized(e: Engine, s: Summary, today: string): Engine {
    var m := Anchored(e.money, s.balance, today);
    e.(money := m, desk := PnlTold(e.desk, m, s))
  }

  function BalanceReadFailed(e: Engine): Engine {
    var n := e.money.readFailures + 1;
    e.(desk := Log(e.desk, ReadSummary), money := e.money.(readFailures := n),
       breaker := if n >= MAX_BALANCE_READ_FAILURES then e.breaker.(running := false) else e.breaker)
  }

  /** The first cycle that sees an anchor after a session end starts the next session's baseline. */
  function LogGrid(m: Money, anchored: bool): Money {
    if m.gridLogged || !anchored then m
    else m.(gridLogged := true, sessionStart := if m.last.Some? then m.last else m.sessionStart)
  }

  /** Reads the balance, where there is one, and tells the strategy; a failed read ends the cycle. */
  function ReadPnl(c: EngineConfig, e: Engine, y: CycleAnswers): (Engine, bool) {
    if !c.hasSummary then (e.(desk := Log(e.desk, TellUnrealized(0.0))), true)
    else if y.summary.None? then (BalanceReadFailed(e), false)
    else (PushRealized(e, y.summary.value, y.today), true)
  }

  /** The cycle up to its signals, and whether it goes on to them. */
  function StartCycle(c: EngineConfig, e: Engine, y: CycleAnswers): (Engine, bool) {
    if y.close.None? then (e, false)
    else
      var (e1, goes) := ReadPnl(c, e.(lastPrice := y.close), y);
      (if goes then e1.(money := LogGrid(e1.money, y.anchored)) else e1, goes)
  }

  /** The signals of one cycle: up to the first None, a close-all, or the cap. */
  function Collect(signals: nat -> Option<Wanted>, i: nat): seq<Wanted>
    decreases MAX_DRAIN + 1 - i
  {
    if i > MAX_DRAIN || signals(i).None? then []
    else if signals(i).value.signal.CloseAll? then [signals(i).value]
    else [signals(i).value] + Collect(signals, i + 1)
  }

  /**
   What the world answers during one cycle. `openCount` is None when a read between the drain and the orders fails.
   */
  datatype CycleCall = CycleCall(start: CycleAnswers, signals: nat -> Option<Wanted>, openCount: Option<nat>,
                                 handling: nat -> SignalAnswers)

  /** All signals of a cycle see the close and the trade count read for that cycle. */
  function AnswersAt(y: CycleCall, i: nat): SignalAnswers
    requires y.start.close.Some? && y.openCount.Some?
  {
    y.handling(i).(close := y.start.close.value, openCount := y.openCount.value)
  }

  function ProcessAll(c: EngineConfig, e: Engine, ws: seq<Wanted>, y: CycleCall): Engine
    requires y.start.close.Some? && y.openCount.Some?
  {
    if ws == [] then e
    else ProcessSignal(c, ProcessAll(c, e, ws[..|ws|-1], y), ws[|ws|-1], AnswersAt(y, |ws| - 1))
  }

  function StrategyCycle(c: EngineConfig, e: Engine, y: CycleCall): Engine {
    var (e1, goes) := StartCycle(c, e, y.start);
    if !goes || Collect(y.signals, 0) == [] || y.openCount.None? then e1
    else ProcessAll(c, e1, Collect(y.signals, 0), y)
  }

  // ---- The loop

  /** One turn of the loop: a fast poll, and a strategy cycle when its interval has passed. */
  datatype Turn = Turn(poll: PollAnswers, cycle: Option<CycleCall>)

  function TakeTurn(c: EngineConfig, e: Engine, t: Turn): Engine {
    var e1 := e.(desk := FastPoll(c, e.desk, e.lastPrice, t.poll));
    if t.cycle.Some? then StrategyCycle(c, e1, t.cycle.value) else e1
  }

  function Loop(c: EngineConfig, e: Engine, turns: seq<Turn>): Engine {
    if turns == [] then e
    else
      var e1 := Loop(c, e, turns[..|turns|-1]);
      if e1.breaker.running then TakeTurn(c, e1, turns[|turns|-1]) else e1
  }

  // ---- Runs, move by move

  datatype Move =
    | Poll(poll: PollAnswers)
    | Begin(cycle: CycleAnswers)
    | Handle(wanted: Wanted, answers: SignalAnswers)

  function Step(c: EngineConfig, e: Engine, m: Move): Engine {
    match m
    case Poll(p) => e.(desk := FastPoll(c, e.desk, e.lastPrice, p))
    case Begin(y) => StartCycle(c, e, y).0
    case Handle(w, a) => ProcessSignal(c, e, w, a)
  }

  function Play(c: EngineConfig, e: Engine, moves: seq<Move>): Engine {
    if moves == [] then e
    else Step(c, Play(c, e, moves[..|moves|-1]), moves[|moves|-1])
  }

  /**
   The engine when its loop starts. `seed` is the balance read first; a broker that has balances but cannot be read
   keeps the engine from starting.
   */
  function Started(c: EngineConfig, seed: Option<real>, today: string): Engine {
    var read := c.hasSummary && seed.Some?;
    var b := if read then seed else None;
    Engine(Desk(map[], map[], map[], map[], [], [], []), Breaker(0, None, !c.hasSummary || seed.Some?),
           Money(b, b, b, if read then today else "", b, false, [], 0), None)
  }
}
