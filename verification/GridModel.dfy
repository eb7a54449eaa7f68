/**
 The sliding-grid strategy as a state machine on values: the meaning that the methods of
 class SlidingGrid are proved against.

 The strategy keeps, per level, the set of sides that are placed (resting), filled (live)
 or stopped out; such a per-level table is held here as the set of its (level, side) keys.
 */
module GridModel {
  import opened Market
  import opened Rounding
  import opened Ladder

  datatype GridConfig = GridConfig(
    spacing: real, anchorGap: real, offset: real, anchorUnits: real, gridUnits: real,
    stopBuffer: real, ahead: nat, behind: nat,
    profitTarget: real, lossLimit: real, dailyLimit: real)

  datatype SessionRecord = SessionRecord(session: int, reason: string, pnl: real)

  /** `fillOrder` is the insertion order of the table of filled sides, which breaks ties in the trim. */
  datatype Grid = Grid(
    anchor: Option<real>, price: real, levels: seq<int>, queue: seq<Signal>,
    placed: set<Key>, filled: set<Key>, fillOrder: seq<int>, stopped: set<Key>,
    pendingClose: set<Key>, retired: set<int>,
    sessionRealized: real, sessionUnrealized: real, dailyRealized: real, authoritative: bool,
    active: bool, date: string, closing: bool, reason: string,
    sessions: int, history: seq<SessionRecord>)

  const MIN_RESTING_DISTANCE: real := 2.0

  const InitialGrid: Grid := Grid(
    None, 0.0, [], [], {}, {}, [], {}, {}, {}, 0.0, 0.0, 0.0, false, true, "", false, "", 1, [])

  function KeysAt(keys: set<Key>, level: int): set<Key> {
    set k | k in keys && k.level == level
  }

  // ---- Prices of a leg

  function SideEntry(c: GridConfig, level: int, side: Side): int {
    if side == Long then Cents(Price(level) + c.offset) else level
  }

  function SideStopLoss(c: GridConfig, levels: seq<int>, level: int, side: Side): Option<int> {
    if side == Long then
      match NextBelow(levels, level)
      case None => None
      case Some(next) => Some(Cents(Price(SideEntry(c, level, side)) - (Price(level - next) + c.stopBuffer)))
    else
      match NextAbove(levels, level)
      case None => None
      case Some(next) => Some(Cents(Price(SideEntry(c, level, side)) + (Price(next - level) + c.stopBuffer)))
  }

  function OrderTypeFor(c: GridConfig, price: real, level: int, side: Side): OrderType {
    var above := Price(SideEntry(c, level, side)) > price;
    if side == Long then (if above then Stop else Limit) else (if above then Limit else Stop)
  }

  /** Orders are sized from a text with one decimal. */
  function UnitsFor(c: GridConfig, anchor: Option<real>, level: int): real {
    Round1(if anchor.Some? && level == Cents(anchor.value) then c.anchorUnits else c.gridUnits)
  }

  function AnchorLevel(g: Grid): Option<int> {
    if g.anchor.Some? then Some(Cents(g.anchor.value)) else None
  }

  predicate Rising(g: Grid) {
    g.anchor.Some? ==> g.price >= g.anchor.value
  }

  function CapAbove(c: GridConfig, g: Grid): nat {
    if Rising(g) then c.ahead else c.behind
  }

  function CapBelow(c: GridConfig, g: Grid): nat {
    if Rising(g) then c.behind else c.ahead
  }

  // ---- Placing

  /** A side that no cycle can place at this price: no stop, or too close to rest. */
  predicate Unplaceable(c: GridConfig, g: Grid, k: Key) {
    SideStopLoss(c, g.levels, k.level, k.side).None?
    || AbsReal(Price(SideEntry(c, k.level, k.side)) - g.price) < MIN_RESTING_DISTANCE
  }

  /** The entry signal of a key; its stop must exist. */
  function EntrySignal(c: GridConfig, g: Grid, k: Key, market: bool): Signal
    requires SideStopLoss(c, g.levels, k.level, k.side).Some?
  {
    Entry(k, UnitsFor(c, g.anchor, k.level),
          if market then OrderType.Market else OrderTypeFor(c, g.price, k.level, k.side),
          if market then 0.0 else Price(SideEntry(c, k.level, k.side)),
          Price(SideStopLoss(c, g.levels, k.level, k.side).value))
  }

  function QueueSide(c: GridConfig, g: Grid, k: Key, market: bool): Grid {
    if SideStopLoss(c, g.levels, k.level, k.side).None? || (!market && Unplaceable(c, g, k)) then g
    else g.(placed := g.placed + {k}, queue := g.queue + [EntrySignal(c, g, k, market)])
  }

  function PlaceAnchorPair(c: GridConfig, g: Grid): Grid {
    if g.anchor.None? then g
    else
      var level := Cents(g.anchor.value);
      QueueSide(c, QueueSide(c, g, Key(level, Long), true), Key(level, Short), true)
  }

  /** The levels at which orders should rest now, in increasing order. */
  function Window(c: GridConfig, g: Grid): seq<int> {
    SortUnique(Take(LevelsAbove(g.levels, g.price), CapAbove(c, g))
               + Take(LevelsBelow(g.levels, g.price), CapBelow(c, g)))
  }

  /** Resting keys outside the window: not at the anchor, no live side at their level. */
  function Stale(g: Grid, window: seq<int>): set<Key> {
    set k | k in g.placed && k.level !in window && AnchorLevel(g) != Some(k.level)
            && KeysAt(g.filled, k.level) == {}
  }

  function Retract(g: Grid, window: seq<int>): Grid {
    var stale := Stale(g, window);
    g.(pendingClose := g.pendingClose + stale, placed := g.placed - stale)
  }

  function QueueMissing(c: GridConfig, g: Grid, k: Key): Grid {
    if k in g.filled || k in g.placed then g else QueueSide(c, g, k, false)
  }

  function QueueLevel(c: GridConfig, g: Grid, level: int): Grid {
    if level in g.retired then g
    else QueueMissing(c, QueueMissing(c, g, Key(level, Long)), Key(level, Short))
  }

  function QueueLevels(c: GridConfig, g: Grid, levels: seq<int>): Grid {
    if levels == [] then g
    else QueueLevel(c, QueueLevels(c, g, levels[..|levels|-1]), levels[|levels|-1])
  }

  function Maintain(c: GridConfig, g: Grid): Grid {
    if g.anchor.None? then g
    else
      var window := Window(c, g);
      QueueLevels(c, Retract(g, window), window)
  }

  // ---- Trimming

  function ActiveLevels(g: Grid): seq<int> {
    ActiveAmong(g.fillOrder, g.filled)
  }

  function ActiveAmong(order: seq<int>, filled: set<Key>): seq<int> {
    if order == [] then []
    else
      var rest := ActiveAmong(order[..|order|-1], filled);
      var level := order[|order|-1];
      if KeysAt(filled, level) != {} then rest + [level] else rest
  }

  function Above(levels: seq<int>, bound: int): seq<int> {
    if levels == [] then []
    else
      var rest := Above(levels[..|levels|-1], bound);
      if levels[|levels|-1] > bound then rest + [levels[|levels|-1]] else rest
  }

  function Below(levels: seq<int>, bound: int): seq<int> {
    if levels == [] then []
    else
      var rest := Below(levels[..|levels|-1], bound);
      if levels[|levels|-1] < bound then rest + [levels[|levels|-1]] else rest
  }

  function ActiveAbove(g: Grid): seq<int>
    requires g.anchor.Some?
  {
    NearestFirst(Above(ActiveLevels(g), Cents(g.anchor.value)), g.price)
  }

  function ActiveBelow(g: Grid): seq<int>
    requires g.anchor.Some?
  {
    NearestFirst(Below(ActiveLevels(g), Cents(g.anchor.value)), g.price)
  }

  function Retire(g: Grid, level: int): Grid {
    if level in g.retired then g
    else g.(retired := g.retired + {level},
            pendingClose := g.pendingClose + KeysAt(g.filled, level) + KeysAt(g.placed, level))
  }

  function RetireAll(g: Grid, levels: seq<int>): Grid {
    if levels == [] then g
    else Retire(RetireAll(g, levels[..|levels|-1]), levels[|levels|-1])
  }

  function Trim(c: GridConfig, g: Grid): Grid {
    if g.anchor.None? then g
    else RetireAll(RetireAll(g, Drop(ActiveAbove(g), CapAbove(c, g))), Drop(ActiveBelow(g), CapBelow(c, g)))
  }

  // ---- Sessions

  function ClearPositions(g: Grid): Grid {
    g.(queue := [], placed := {}, filled := {}, fillOrder := [], stopped := {}, pendingClose := {},
       retired := {}, sessionUnrealized := 0.0, closing := false)
  }

  function Restart(g: Grid): Grid {
    ClearPositions(g).(anchor := None, levels := [], sessionRealized := 0.0, sessions := g.sessions + 1)
  }

  function TriggerCloseAll(g: Grid, reason: string): Grid {
    g.(reason := reason, closing := true, queue := [],
       history := g.history + [SessionRecord(g.sessions, reason, Round2(g.sessionRealized))])
  }

  function NotifyComplete(g: Grid): Grid {
    var g1 := g.(closing := false);
    if g1.active then Restart(g1) else ClearPositions(g1)
  }

  // ---- Callbacks

  function UpdateUnrealized(g: Grid, pnl: real): Grid {
    g.(sessionUnrealized := pnl)
  }

  function SetRealized(g: Grid, session: real, daily: real): Grid {
    g.(authoritative := true, sessionRealized := session, dailyRealized := daily)
  }

  function ReportFill(g: Grid, k: Key): Grid {
    g.(placed := g.placed - {k}, filled := g.filled + {k}, stopped := g.stopped - {k},
       fillOrder := if k.level in g.fillOrder then g.fillOrder else g.fillOrder + [k.level])
  }

  function ReportClosed(g: Grid, k: Key, pnl: real): Grid {
    var g1 := if g.authoritative then g
              else g.(sessionRealized := g.sessionRealized + pnl, dailyRealized := g.dailyRealized + pnl);
    var g2 := g1.(filled := g1.filled - {k});
    if k.level in g2.retired then g2.(placed := g2.placed - {k}) else g2.(stopped := g2.stopped + {k})
  }

  function WithoutKey(queue: seq<Signal>, k: Key): seq<Signal> {
    if queue == [] then []
    else
      var rest := WithoutKey(queue[..|queue|-1], k);
      var last := queue[|queue|-1];
      if last.Entry? && last.key == k then rest else rest + [last]
  }

  function OnRejected(g: Grid, k: Key): Grid {
    g.(queue := WithoutKey(g.queue, k), placed := g.placed - {k})
  }

  // ---- The strategy cycle

  /** Takes in the bar: current price, and the reset at a day boundary. */
  function StartBar(g: Grid, bar: Bar): Grid {
    var g1 := g.(price := bar.close);
    var g2 :=
      if g1.date == "" || g1.date == bar.date then g1
      else
        var renewed := g1.(dailyRealized := 0.0);
        (if !renewed.active && !renewed.closing then Restart(renewed) else renewed).(active := true);
    g2.(date := bar.date)
  }

  predicate DailyTripped(c: GridConfig, g: Grid) {
    g.dailyRealized + g.sessionUnrealized <= -c.dailyLimit
  }

  function HaltForTheDay(g: Grid): (Grid, Option<Signal>) {
    var g1 := g.(active := false);
    if g1.anchor.Some? then (TriggerCloseAll(g1, "daily_loss_limit"), Some(CloseAll("daily_loss_limit")))
    else (g1, None)
  }

  /** Why the session must end now, if it must. */
  function SessionExit(c: GridConfig, g: Grid): Option<string> {
    var pnl := g.sessionRealized + g.sessionUnrealized;
    if g.anchor.None? then None
    else if pnl >= c.profitTarget then Some("session_profit_target")
    else if pnl <= -c.lossLimit then Some("session_loss_limit")
    else None
  }

  function InitSession(c: GridConfig, g: Grid): Grid {
    Maintain(c, PlaceAnchorPair(c, g.(anchor := Some(g.price),
                                      levels := BuildLadder(c.anchorGap, c.spacing, g.price))))
  }

  function PopSignal(g: Grid): (Grid, Option<Signal>) {
    if g.queue == [] then (g, None) else (g.(queue := g.queue[1..]), Some(g.queue[0]))
  }

  /** What the cycle does once the queue is empty and no close-all is under way. */
  function Decide(c: GridConfig, g: Grid): (Grid, Option<Signal>) {
    if !g.active then (g, None)
    else if DailyTripped(c, g) then HaltForTheDay(g)
    else if SessionExit(c, g).Some? then
      (TriggerCloseAll(g, SessionExit(c, g).value), Some(CloseAll(SessionExit(c, g).value)))
    else if g.anchor.None? then PopSignal(InitSession(c, g))
    else PopSignal(Maintain(c, Trim(c, g)))
  }

  function Generate(c: GridConfig, g: Grid, bars: seq<Bar>): (Grid, Option<Signal>) {
    if bars == [] then (g, None)
    else
      var g1 := StartBar(g, bars[|bars|-1]);
      if g1.queue != [] then PopSignal(g1)
      else if g1.closing then (g1, Some(CloseAll(g1.reason)))
      else Decide(c, g1)
  }
}
