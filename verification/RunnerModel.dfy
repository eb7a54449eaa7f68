/**
 The backtest runner in grid mode as a state machine on values: the strategy, the broker and
 the runner's own maps, stepped bar by bar through the callbacks between them.
 */
module RunnerModel {
  import opened Market
  import opened Rounding
  import opened GridModel
  import opened BrokerModel
  import opened MarketData

  /** `enumerate` lists a set of keys in the order in which the trim walks them. */
  datatype RunConfig = RunConfig(grid: GridConfig, broker: BrokerConfig, enumerate: set<Key> -> seq<Key>)

  /** `tm` maps grid keys to live trades, `om` to resting orders; `pnls` is the runner's ledger. */
  datatype World = World(g: Grid, b: Broker, tm: map<Key, nat>, om: map<Key, nat>, pnls: seq<real>)

  function InitialWorld(capital: real): World {
    World(InitialGrid, InitialBroker(capital), map[], map[], [])
  }

  const MAX_SIGNAL_DRAIN: nat := 50

  /** A key that a map sends to an id, if there is one. */
  ghost function KeyOf(m: map<Key, nat>, id: nat): Option<Key> {
    if exists k :: k in m && m[k] == id then
      var k :| k in m && m[k] == id;
      Some(k)
    else None
  }

  // ---- Fills and closures reported by the broker

  ghost function HandleFill(w: World, t: OpenTrade): World {
    match t.gridKey
    case None => w
    case Some(k) =>
      w.(om := w.om - {k}, tm := w.tm[k := t.id],
         b := w.b.(openTrades := Stamp(w.b.openTrades, t.id, k)), g := ReportFill(w.g, k))
  }

  ghost function HandleFills(w: World, fills: seq<OpenTrade>): World {
    if fills == [] then w else HandleFill(HandleFills(w, fills[..|fills|-1]), fills[|fills|-1])
  }

  /** Banks a closed trade under the key that held it. */
  ghost function Bank(w: World, id: nat, pnl: real): World {
    match KeyOf(w.tm, id)
    case None => w
    case Some(k) => w.(g := ReportClosed(w.g, k, pnl), pnls := w.pnls + [pnl], tm := w.tm - {k})
  }

  ghost function HandleClosures(w: World, closures: seq<ClosedTrade>): World {
    if closures == [] then w
    else
      var c := closures[|closures|-1];
      Bank(HandleClosures(w, closures[..|closures|-1]), c.id, c.pnl)
  }

  // ---- Signals

  /** Closes a trade and banks it; an unknown trade is left alone. */
  ghost function CloseAndBank(rc: RunConfig, w: World, bar: Bar, id: nat): World {
    match CloseTrade(rc.broker, w.b, bar, id)
    case None => w
    case Some(b1) =>
      var w1 := w.(b := b1);
      match Lookup(b1.closed, id)
      case None => w1
      case Some(info) => Bank(w1, id, info.pnl)
  }

  ghost function CloseEach(rc: RunConfig, w: World, bar: Bar, trades: seq<OpenTrade>): World {
    if trades == [] then w
    else CloseAndBank(rc, CloseEach(rc, w, bar, trades[..|trades|-1]), bar, trades[|trades|-1].id)
  }

  ghost function CancelEverything(w: World): World {
    w.(b := w.b.(pending := []), om := map[])
  }

  ghost function CloseAllTrades(rc: RunConfig, w: World, bar: Bar): World {
    var w1 := CloseEach(rc, CancelEverything(w), bar, w.b.openTrades);
    w1.(tm := map[], g := NotifyComplete(w1.g))
  }

  ghost function PlaceResting(w: World, s: Signal): World
    requires s.Entry?
  {
    var b1 := PlacePending(w.b, OrderSideOf(s.key.side), s.units, s.limitPrice, s.stopLoss,
                           s.orderType == OrderType.Stop);
    w.(b := b1.(pending := Stamp(b1.pending, w.b.nextId, s.key)), om := w.om[s.key := w.b.nextId])
  }

  ghost function PlaceAtMarket(rc: RunConfig, w: World, bar: Bar, s: Signal): World
    requires s.Entry?
  {
    var b1 := FillMarket(rc.broker, w.b, bar, OrderSideOf(s.key.side), s.units, s.stopLoss);
    w.(b := b1.(openTrades := Stamp(b1.openTrades, w.b.nextId, s.key)), tm := w.tm[s.key := w.b.nextId],
       g := ReportFill(w.g, s.key))
  }

  ghost function ProcessSignal(rc: RunConfig, w: World, bar: Bar, s: Signal): World {
    if s.CloseAll? then CloseAllTrades(rc, w, bar)
    else if s.orderType == OrderType.Market then PlaceAtMarket(rc, w, bar, s)
    else PlaceResting(w, s)
  }

  /** One call of the strategy within a bar. */
  ghost function Ask(rc: RunConfig, w: World, bars: seq<Bar>): (World, Option<Signal>) {
    var (g1, s) := Generate(rc.grid, w.g, bars);
    (w.(g := g1), s)
  }

  datatype Drained = Drained(w: World, processed: nat, dropped: bool)

  /** The drain loop; a signal in hand when the cap is reached is dropped. */
  ghost function DrainFrom(rc: RunConfig, w: World, bars: seq<Bar>, s: Option<Signal>, count: nat): Drained
    requires bars != []
    decreases MAX_SIGNAL_DRAIN - count
  {
    if s.None? || count >= MAX_SIGNAL_DRAIN then Drained(w, count, s.Some?)
    else
      var (w1, s1) := Ask(rc, ProcessSignal(rc, w, bars[|bars|-1], s.value), bars);
      DrainFrom(rc, w1, bars, s1, count + 1)
  }

  lemma DrainUnfolds(rc: RunConfig, w: World, bars: seq<Bar>, s: Option<Signal>, count: nat)
    requires bars != []
    ensures DrainFrom(rc, w, bars, s, count) ==
      if s.None? || count >= MAX_SIGNAL_DRAIN then Drained(w, count, s.Some?)
      else
        var (w1, s1) := Ask(rc, ProcessSignal(rc, w, bars[|bars|-1], s.value), bars);
        DrainFrom(rc, w1, bars, s1, count + 1)
  {
  }

  ghost function Drain(rc: RunConfig, w: World, bars: seq<Bar>): Drained
    requires bars != []
  {
    var (w1, s) := Ask(rc, w, bars);
    DrainFrom(rc, w1, bars, s, 0)
  }

  // ---- Trims

  /** Cancels what rests at a key, then closes and banks what is live there. */
  ghost function TrimKey(rc: RunConfig, w: World, bar: Bar, k: Key): World {
    var w1 := if k in w.om then w.(om := w.om - {k}, b := w.b.(pending := RemoveById(w.b.pending, w.om[k]))) else w;
    if k !in w1.tm then w1
    else
      var id := w1.tm[k];
      match CloseTrade(rc.broker, w1.b, bar, id)
      case None => w1
      case Some(b1) =>
        var info := Lookup(b1.closed, id);
        var pnl := if info.Some? then info.value.pnl else 0.0;
        w1.(b := b1, pnls := w1.pnls + [pnl], tm := w1.tm - {k}, g := ReportClosed(w1.g, k, pnl))
  }

  ghost function TrimKeys(rc: RunConfig, w: World, bar: Bar, keys: seq<Key>): World {
    if keys == [] then w
    else TrimKey(rc, TrimKeys(rc, w, bar, keys[..|keys|-1]), bar, keys[|keys|-1])
  }

  ghost function HandleLevelsToClose(rc: RunConfig, w: World, bar: Bar): World {
    TrimKeys(rc, w.(g := w.g.(pendingClose := {})), bar, rc.enumerate(w.g.pendingClose))
  }

  // ---- A step and a run

  /** Steps 1 to 4: the bar, the fills, the closures, the floating result. */
  ghost function BeforeDrain(rc: RunConfig, w: World, bar: Bar): World {
    var w1 := w.(b := ProcessBar(rc.broker, w.b, bar));
    var w2 := HandleFills(w1, NewFills(rc.broker, w.b, bar));
    var w3 := HandleClosures(w2, NewClosures(rc.broker, w.b, bar));
    w3.(g := UpdateUnrealized(w3.g, Round2(Unrealized(w3.b.openTrades, bar.close))))
  }

  ghost function GridStep(rc: RunConfig, w: World, bars: seq<Bar>): World
    requires bars != []
  {
    var bar := bars[|bars|-1];
    HandleLevelsToClose(rc, Drain(rc, BeforeDrain(rc, w, bar), bars).w, bar)
  }

  /** The state after `n` steps of the replay, which starts with the cursor at `count`. */
  ghost function Replay(rc: RunConfig, capital: real, bars: seq<Bar>, count: nat, n: nat): World
    requires 1 <= count && count + n <= |bars|
  {
    if n == 0 then InitialWorld(capital)
    else GridStep(rc, Replay(rc, capital, bars, count, n - 1), Visible(bars, count + n - 1, count))
  }

  /** Initial capital, then the equity after each of the first `n` steps. */
  ghost function EquityCurve(rc: RunConfig, capital: real, bars: seq<Bar>, count: nat, n: nat): seq<real>
    requires 1 <= count && count + n <= |bars|
  {
    if n == 0 then [capital]
    else EquityCurve(rc, capital, bars, count, n - 1)
         + [Equity(Replay(rc, capital, bars, count, n).b, bars[count + n - 2])]
  }

  /** The liquidation of one trade after the last bar; the strategy is not told. */
  ghost function FlattenOne(rc: RunConfig, w: World, bar: Bar, id: nat): World {
    match CloseTrade(rc.broker, w.b, bar, id)
    case None => w
    case Some(b1) =>
      match Lookup(b1.closed, id)
      case None => w.(b := b1)
      case Some(info) => w.(b := b1, pnls := w.pnls + [info.pnl])
  }

  ghost function FlattenEach(rc: RunConfig, w: World, bar: Bar, trades: seq<OpenTrade>): World {
    if trades == [] then w
    else FlattenOne(rc, FlattenEach(rc, w, bar, trades[..|trades|-1]), bar, trades[|trades|-1].id)
  }

  ghost function FlattenAtEnd(rc: RunConfig, w: World, bar: Bar): World {
    FlattenEach(rc, w, bar, w.b.openTrades).(tm := map[])
  }

  /** The final state and the equity curve of a run; the last bar of the data is never replayed. */
  ghost function RunResult(rc: RunConfig, capital: real, bars: seq<Bar>, count: nat): (World, seq<real>)
    requires 1 <= count <= |bars|
  {
    var steps := |bars| - count;
    var w, curve := Replay(rc, capital, bars, count, steps), EquityCurve(rc, capital, bars, count, steps);
    if steps == 0 then (w, curve)
    else
      var bar := bars[|bars| - 2];
      var final := FlattenAtEnd(rc, w, bar);
      (final, curve + [Equity(final.b, bar)])
  }
}
