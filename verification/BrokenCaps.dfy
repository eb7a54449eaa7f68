/**
 A run that breaks the directional caps: the first bar leaves more than 50 signals over, so the second, whose fills are
 on the wrong side of the anchor, trims nothing.
 */
module BrokenCaps {
  import opened Market
  import opened Rounding
  import opened Ladder
  import opened GridModel
  import opened BrokerModel
  import opened RunnerModel
  import opened MarketData
  import opened Books
  import opened BrokerProofs
  import opened Agreement
  import opened DrainAgreement
  import opened StepAgreement
  import opened Quiescence
  import opened GridRun
  import opened EveryRun
  import opened CutDrains
  import opened LevelCaps
  import opened TightGrid
  import opened DrainSharp

  /** Reaches every level above the anchor and closes below it. */
  const DIP: Bar := Bar("day", CLOSE, 2000.0, 999.0, 999.0)

  // ---- What the first call places

  lemma InitPlaced(c: GridConfig, g: Grid)
    requires g.placed == {}
    ensures var g0 := g.(anchor := Some(g.price), levels := BuildLadder(c.anchorGap, c.spacing, g.price));
      forall k :: k in InitSession(c, g).placed ==> k.level == Cents(g.price) || k.level in Window(c, g0)
  {
    hide QueueLevels, Window, BuildLadder;
    var g0 := g.(anchor := Some(g.price), levels := BuildLadder(c.anchorGap, c.spacing, g.price));
    var g1 := PlaceAnchorPair(c, g0);
    AnchorPairFrame(c, g0);
    assert forall k :: k in g1.placed ==> k.level == Cents(g.price);
    hide PlaceAnchorPair;
    SameWindowAfterPair(c, g0, g1);
    QueueLevelsQueue(c, Retract(g1, Window(c, g1)), Window(c, g1));
  }

  lemma SameWindowAfterPair(c: GridConfig, g: Grid, g': Grid)
    requires g' == g.(placed := g'.placed, queue := g'.queue)
    ensures Window(c, g') == Window(c, g)
  {
  }

  /** With no level behind, the window is above the anchor. */
  lemma WindowAbove(c: GridConfig, g: Grid)
    requires Anchoring(g) && c == Tight(c.ahead, 0) && c.ahead <= 99
    ensures forall x :: x in Window(c, g) ==> x > ANCHOR
  {
    TightSides(g.levels);
    hide LevelsAbove, LevelsBelow, SortUnique, Evenly;
    assert Rising(g);
    var above := Take(LevelsAbove(g.levels, CLOSE), c.ahead);
    var below := Take(LevelsBelow(g.levels, CLOSE), 0);
    assert below == [] && above + below == above;
    SortUniqueIsSorted(above);
    forall x | x in Window(c, g) ensures x > ANCHOR {
      assert x in above;
      var i :| 0 <= i < |above| && above[i] == x;
    }
  }

  lemma FirstPlaced(rc: RunConfig, capital: real)
    requires IsTight(rc) && rc.grid.behind == 0
    ensures forall k :: k in Ask(rc, InitialWorld(capital), [FLAT]).0.g.placed ==> k.level >= ANCHOR
  {
    FirstBarStarts(rc, capital);
    StartTheorem(rc.grid, capital);
    hide InStep, AtBar, Ask, Decide, InitSession, BuildLadder, DailyTripped, Evenly, Window;
    AskStartsBar(rc, InitialWorld(capital), [FLAT], capital);
    var w1 := InitialWorld(capital).(g := StartBar(InitialGrid, FLAT));
    WithinTheDay(rc, w1.g);
    AskLaunches(rc, w1);
    DecideLaunches(rc.grid, w1.g);
    InitPlaced(rc.grid, w1.g);
    LadderIsEven();
    AnchorCents();
    WindowAbove(rc.grid, w1.g.(anchor := Some(CLOSE), levels := TightLadder()));
  }

  // ---- The third signal rests above the anchor

  /** The order that a resting entry becomes. */
  function OrderUnder(s: Signal, id: nat): PendingOrder
    requires s.Entry?
  {
    Booked(id, Some(s.key), OrderTerms(OrderSideOf(s.key.side), s.units, s.limitPrice, s.stopLoss,
                                       s.orderType == OrderType.Stop))
  }

  lemma RoundShrinks(rc: RunConfig, w: World, s: Signal, paidIn: real)
    requires Draining(rc.grid, w, Some(s), FLAT, paidIn)
    ensures Ask(rc, ProcessSignal(rc, w, FLAT, s), [FLAT]).0.g.placed <= w.g.placed
    ensures forall p :: p in w.b.pending ==> p in Ask(rc, ProcessSignal(rc, w, FLAT, s), [FLAT]).0.b.pending
  {
    hide Draining, ProcessSignal, Ask, Settled, Agreed, BrokerOk;
    DrainingEntry(rc.grid, w, s, paidIn);
    EntryKeepsPending(rc, w, s);
    SettledProcess(rc, w, FLAT, s, paidIn);
    AskPops(rc, ProcessSignal(rc, w, FLAT, s), [FLAT]);
  }

  lemma EntryKeepsPending(rc: RunConfig, w: World, s: Signal)
    requires s.Entry? && BrokerOk(w.b)
    ensures var w1 := ProcessSignal(rc, w, FLAT, s);
      w1.g.placed <= w.g.placed && forall p :: p in w.b.pending ==> p in w1.b.pending
    ensures s.orderType != OrderType.Market ==>
      OrderUnder(s, w.b.nextId) in ProcessSignal(rc, w, FLAT, s).b.pending
  {
    if s.orderType != OrderType.Market {
      var b1 := PlacePending(w.b, OrderSideOf(s.key.side), s.units, s.limitPrice, s.stopLoss,
                             s.orderType == OrderType.Stop);
      StampLast(w.b.pending, b1.pending[|w.b.pending|], s.key);
    }
    hide FillMarket, Stamp;
  }

  lemma {:induction false} DrainKeepsPending(rc: RunConfig, w: World, s: Option<Signal>, count: nat, p: PendingOrder,
                                             paidIn: real)
    requires Draining(rc.grid, w, s, FLAT, paidIn) && p in w.b.pending
    ensures p in DrainFrom(rc, w, [FLAT], s, count).w.b.pending
    decreases MAX_SIGNAL_DRAIN - count
  {
    hide Draining, Ask, ProcessSignal, DrainFrom;
    DrainUnfolds(rc, w, [FLAT], s, count);
    if s.Some? && count < MAX_SIGNAL_DRAIN {
      RoundShrinks(rc, w, s.value, paidIn);
      SettledRound(rc, w, [FLAT], s.value, paidIn);
      var (w1, s1) := Ask(rc, ProcessSignal(rc, w, FLAT, s.value), [FLAT]);
      DrainKeepsPending(rc, w1, s1, count + 1, p, paidIn);
    }
  }

  /** An order that the bar touches, for a side above the anchor. */
  predicate WaitsForDip(p: PendingOrder) {
    p.gridKey.Some? && p.gridKey.value.level > ANCHOR && Touched(p, DIP)
  }

  lemma CalmWaits(s: Signal, id: nat)
    requires Calm(s) && s.orderType != OrderType.Market && s.key.level >= ANCHOR
    ensures WaitsForDip(OrderUnder(s, id))
  {
  }

  lemma InHandIsPlaced(c: GridConfig, w: World, s: Signal, paidIn: real)
    requires Draining(c, w, Some(s), FLAT, paidIn)
    ensures s.Entry? && BrokerOk(w.b) && s.key in w.g.placed
  {
    QueueBehind(w.g, w.om.Keys, s, w.g.queue);
  }

  /** A drain with its first resting signal in hand leaves such an order. */
  lemma ThirdRests(rc: RunConfig, w: World, s: Signal, count: nat, paidIn: real) returns (p: PendingOrder)
    requires Draining(rc.grid, w, Some(s), FLAT, paidIn) && count < MAX_SIGNAL_DRAIN
    requires Calm(s) && s.orderType != OrderType.Market && forall k :: k in w.g.placed ==> k.level >= ANCHOR
    ensures WaitsForDip(p) && p in DrainFrom(rc, w, [FLAT], Some(s), count).w.b.pending
  {
    hide Draining, DrainFrom, Ask, ProcessSignal, Calm, WaitsForDip, BrokerOk;
    InHandIsPlaced(rc.grid, w, s, paidIn);
    p := OrderUnder(s, w.b.nextId);
    CalmWaits(s, w.b.nextId);
    EntryKeepsPending(rc, w, s);
    DrainUnfolds(rc, w, [FLAT], Some(s), count);
    SettledProcess(rc, w, FLAT, s, paidIn);
    SettledRound(rc, w, [FLAT], s, paidIn);
    var w1 := ProcessSignal(rc, w, FLAT, s);
    AskKeepsBroker(rc, w1);
    var (w2, s2) := Ask(rc, w1, [FLAT]);
    DrainKeepsPending(rc, w2, s2, count + 1, p, paidIn);
  }

  lemma AskKeepsBroker(rc: RunConfig, w: World)
    ensures Ask(rc, w, [FLAT]).0.b == w.b
  {
    hide Generate;
  }

  /** The drain of the first bar, past its two market signals. */
  lemma {:induction false} MarketsFirst(rc: RunConfig, w: World, s: Option<Signal>, count: nat, n: nat, m: nat,
                                        paidIn: real) returns (p: PendingOrder)
    requires IsTight(rc) && Draining(rc.grid, w, s, FLAT, paidIn) && count + m < MAX_SIGNAL_DRAIN
    requires Standing(w.b, n) && Remaining(Waiting(s) + w.g.queue, m) && m < |Waiting(s)| + |w.g.queue|
    requires forall k :: k in w.g.placed ==> k.level >= ANCHOR
    ensures WaitsForDip(p) && p in DrainFrom(rc, w, [FLAT], s, count).w.b.pending
    decreases m
  {
    hide IsTight, Draining, Standing, Ask, ProcessSignal, DrainFrom, Calm, WaitsForDip;
    if s.None? {
      NothingWaits(rc.grid, w, FLAT, paidIn);
    }
    assert (Waiting(s) + w.g.queue)[0] == s.value;
    hide Remaining;
    if m == 0 {
      p := ThirdRests(rc, w, s.value, count, paidIn);
    } else {
      RoundStands(rc, w, s.value, n, m, paidIn);
      RoundShrinks(rc, w, s.value, paidIn);
      DrainUnfolds(rc, w, [FLAT], s, count);
      var (w1, s1) := Ask(rc, ProcessSignal(rc, w, FLAT, s.value), [FLAT]);
      p := MarketsFirst(rc, w1, s1, count + 1, n + 1, m - 1, paidIn);
    }
  }

  // ---- The two bars

  /** The first bar leaves more than 50 signals over and an order above the anchor. */
  lemma FirstBarLeaves(rc: RunConfig, capital: real) returns (p: PendingOrder)
    requires IsTight(rc) && Enumerates(rc) && rc.grid.behind == 0 && rc.grid.ahead >= 50
    ensures var w := GridStep(rc, InitialWorld(capital), [FLAT]);
      |w.g.queue| > MAX_SIGNAL_DRAIN && w.g.anchor == Some(CLOSE) && WaitsForDip(p) && p in w.b.pending
  {
    FirstBarStarts(rc, capital);
    FirstAsk(rc, capital);
    FirstPlaced(rc, capital);
    var (w, s) := Ask(rc, InitialWorld(capital), [FLAT]);
    hide IsTight, Ask, Draining, DrainFrom, Standing, HandleLevelsToClose, BeforeDrain, Calm, WaitsForDip, Lost;
    OpeningRemains(Waiting(s) + w.g.queue, rc.grid.ahead + rc.grid.behind);
    assert |Waiting(s) + w.g.queue| == |Waiting(s)| + |w.g.queue|;
    NothingStands(capital);
    DrainStands(rc, w, s, 0, 0, 2, capital);
    DrainDropsIff(rc, w, [FLAT], s, 0, capital);
    p := MarketsFirst(rc, w, s, 0, 0, 2, capital);
    NothingToClose(rc, DrainFrom(rc, w, [FLAT], s, 0).w, FLAT);
  }

  lemma NothingStands(capital: real)
    ensures Standing(InitialBroker(capital), 0)
  {
  }

  lemma {:induction false} TouchedTriggers(ps: seq<PendingOrder>, bar: Bar, p: PendingOrder)
    requires p in ps && Touched(p, bar)
    ensures p in Triggered(ps, bar)
  {
    if p != ps[|ps|-1] {
      TouchedTriggers(ps[..|ps|-1], bar, p);
    }
    hide Touched;
  }

  /** A touched order's side is live when the strategy is asked. */
  lemma TouchedIsFilled(rc: RunConfig, w: World, bar: Bar, p: PendingOrder, lost: set<Key>, paidIn: real)
    requires Surviving(rc.grid, w, lost, paidIn) && w.g.pendingClose == {}
    requires p in w.b.pending && p.gridKey.Some? && Touched(p, bar)
    ensures p.gridKey.value in BeforeDrain(rc, w, bar).g.filled
  {
    hide BeforeDrain, ProcessBar, NewFills, NewClosures, Sided, StoppedOut, Triggered, Touched;
    BeforeDrainSurvives(rc, w, bar, lost, paidIn);
    ProcessBarOutcome(rc.broker, w.b, bar, paidIn);
    TouchedTriggers(w.b.pending, bar, p);
    var ps, fills := Triggered(w.b.pending, bar), NewFills(rc.broker, w.b, bar);
    var i :| 0 <= i < |ps| && ps[i] == p;
    var w' := BeforeDrain(rc, w, bar);
    assert fills[i] in w'.b.openTrades && fills[i].gridKey == p.gridKey;
    TicketsAre(w'.b.openTrades);
  }

  /** A level held above the anchor is one too many once price is below it. */
  lemma HeldAboveBreaks(c: GridConfig, g: Grid, k: Key)
    requires c.behind == 0 && g.anchor == Some(CLOSE) && g.price == 999.0 && k in g.filled && k.level > ANCHOR
    ensures !Exposure(c, g)
  {
    AnchorCents();
    hide Cents;
    assert k.level in HeldAbove(g);
  }

  lemma SecondBarBreaks(rc: RunConfig, w: World, p: PendingOrder, lost: set<Key>, paidIn: real)
    requires Enumerates(rc) && rc.grid.behind == 0
    requires BetweenSteps(rc.grid, w, lost, paidIn) && Orderly(w)
    requires |w.g.queue| > MAX_SIGNAL_DRAIN && w.g.anchor == Some(CLOSE) && WaitsForDip(p) && p in w.b.pending
    ensures !Exposure(rc.grid, GridStep(rc, w, [DIP]).g)
  {
    hide GridStep, BeforeDrain, Surviving, Orderly, Exposure, Touched, Enumerates;
    TouchedIsFilled(rc, w, DIP, p, lost, paidIn);
    BarKeepsCourse(rc, w, DIP);
    HeldAboveBreaks(rc.grid, BeforeDrain(rc, w, DIP).g.(price := 999.0), p.gridKey.value);
    UndecidedBarIff(rc, w, [DIP], lost, paidIn);
  }

  /** Main result: with at least 50 levels ahead and none behind, the caps do not hold after the second bar. */
  lemma CapsAreBroken(rc: RunConfig, capital: real)
    requires IsTight(rc) && Enumerates(rc) && rc.grid.behind == 0 && rc.grid.ahead >= 50
    ensures !Exposure(rc.grid, Replay(rc, capital, [FLAT, DIP, DIP], 1, 2).g)
  {
    hide GridStep, BetweenSteps, Orderly, Exposure, Enumerates, IsTight, WaitsForDip;
    var bars := [FLAT, DIP, DIP];
    assert Visible(bars, 1, 1) == [FLAT] && Visible(bars, 2, 1) == [DIP];
    assert Replay(rc, capital, bars, 1, 1) == GridStep(rc, InitialWorld(capital), [FLAT]);
    var p := FirstBarLeaves(rc, capital);
    var lost := RunSurvives(rc, capital, bars, 1, 1);
    RunIsOrderly(rc, capital, bars, 1, 1);
    SecondBarBreaks(rc, Replay(rc, capital, bars, 1, 1), p, lost, capital);
  }
}
