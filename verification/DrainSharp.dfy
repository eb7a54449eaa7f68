/**
 The bound on the levels is sharp: a grid with 25 levels ahead and behind drops a signal on its very first bar, and one
 with 24 when a session ends and the next begins on one bar.
 */
module DrainSharp {
  import opened Market
  import opened Rounding
  import opened GridModel
  import opened BrokerModel
  import opened RunnerModel
  import opened MarketData
  import opened Books
  import opened BrokerProofs
  import opened Agreement
  import opened DrainAgreement
  import opened StepAgreement
  import opened Quiescence
  import opened GridRun
  import opened TightGrid

  const FLAT: Bar := Bar("day", CLOSE, CLOSE, CLOSE, CLOSE)

  /** Half a unit of cost for every fill. */
  function TightRun(ahead: nat, behind: nat, enumerate: set<Key> -> seq<Key>): RunConfig {
    RunConfig(Tight(ahead, behind), BrokerConfig(1.0, 0.0, n => 0.0), enumerate)
  }

  ghost predicate IsTight(rc: RunConfig) {
    rc == TightRun(rc.grid.ahead, rc.grid.behind, rc.enumerate) && rc.grid.ahead <= 99 && rc.grid.behind <= 99
  }

  // ---- The first call of a session

  lemma OpeningPops(g: Grid, n: nat)
    requires Opening(g.queue, n)
    ensures var (g', s) := PopSignal(g);
      Opening(Waiting(s) + g'.queue, n) && g' == g.(queue := g'.queue)
  {
    hide Calm;
    assert [g.queue[0]] + g.queue[1..] == g.queue;
  }

  /** What the first call of a session leaves of the state before it. */
  ghost predicate Launched(g: Grid, g': Grid) {
    g'.pendingClose == {} && g'.anchor == Some(CLOSE) && g'.active == g.active && SameBar(g, g')
  }

  lemma InitOpens(c: GridConfig, g: Grid)
    requires g.price == CLOSE && InitSession(c, g).pendingClose == {}
    ensures Launched(g, InitSession(c, g))
  {
    InitFrame(c, g);
  }

  lemma DecideLaunches(c: GridConfig, g: Grid)
    requires g.active && g.anchor.None? && !DailyTripped(c, g)
    ensures Decide(c, g) == PopSignal(InitSession(c, g))
  {
    hide InitSession, Maintain, Trim, DailyTripped, PopSignal, HaltForTheDay, TriggerCloseAll;
  }

  lemma SessionOpens(c: GridConfig, g: Grid)
    requires Fresh(g) && g.active && g.anchor.None? && !DailyTripped(c, g)
    requires c == Tight(c.ahead, c.behind) && c.ahead <= 99 && c.behind <= 99
    ensures var (g', s) := Decide(c, g);
      Opening(Waiting(s) + g'.queue, c.ahead + c.behind) && Launched(g, g')
  {
    hide Decide, InitSession, Opening, Waiting, Tight, DailyTripped, PopSignal;
    FirstCallFills(c, g);
    InitOpens(c, g);
    OpeningPops(InitSession(c, g), c.ahead + c.behind);
    DecideLaunches(c, g);
  }

  lemma FlatFrictions(rc: RunConfig, draw: nat)
    requires IsTight(rc)
    ensures Friction(rc.broker, draw, Buy, CLOSE) == 1000.5 && Friction(rc.broker, draw, Sell, CLOSE) == 999.5
  {
    RoundInteger(100050000);
    RoundInteger(99950000);
  }

  /** The start of a run, at its first bar. */
  lemma FirstBarStarts(rc: RunConfig, capital: real)
    requires IsTight(rc)
    ensures BeforeDrain(rc, InitialWorld(capital), FLAT) == InitialWorld(capital)
    ensures StartBar(InitialGrid, FLAT) == InitialGrid.(price := CLOSE, date := "day")
  {
    RoundInteger(0);
  }

  /** An anchored session with nothing realized. */
  predicate Underway(g: Grid) {
    && g.anchor == Some(CLOSE) && g.active && g.price == CLOSE && g.date == "day"
    && g.sessionRealized == 0.0 && g.dailyRealized == 0.0
  }

  lemma WithinTheDay(rc: RunConfig, g: Grid)
    requires IsTight(rc) && g.dailyRealized == 0.0 && g.sessionUnrealized == 0.0
    ensures !DailyTripped(rc.grid, g)
  {
  }

  /** A fresh grid at the flat bar answers with what it decides. */
  lemma AskLaunches(rc: RunConfig, w: World)
    requires w.g.queue == [] && !w.g.closing && w.g.active && w.g.price == CLOSE && w.g.date == "day"
    ensures var (g', s) := Decide(rc.grid, w.g); Ask(rc, w, [FLAT]) == (w.(g := g'), s)
  {
    hide Decide;
    assert StartBar(w.g, FLAT) == w.g;
  }

  lemma AtFlat(c: GridConfig, w: World, paidIn: real)
    requires AtBar(c, w, FLAT, paidIn)
    ensures !w.g.closing && w.g.date == "day"
  {
  }

  lemma OpensWithEntry(s: Option<Signal>, queue: seq<Signal>, n: nat)
    requires Opening(Waiting(s) + queue, n)
    ensures s.Some? ==> s.value.Entry?
  {
    assert s.Some? ==> (Waiting(s) + queue)[0] == s.value;
  }

  lemma OpeningIsDraining(rc: RunConfig, w: World, n: nat, paidIn: real)
    requires Positive(rc.grid) && AtBar(rc.grid, w, FLAT, paidIn)
    requires var (w', s) := Ask(rc, w, [FLAT]); Opening(Waiting(s) + w'.g.queue, n)
    ensures var (w', s) := Ask(rc, w, [FLAT]); Draining(rc.grid, w', s, FLAT, paidIn)
  {
    hide Ask, AtBar, Draining, Opening, Waiting, Positive;
    var (w', s) := Ask(rc, w, [FLAT]);
    OpensWithEntry(s, w'.g.queue, n);
    AskAtBar(rc, w, [FLAT], paidIn);
  }

  /** The first call of a session that the flat bar opens. */
  lemma SessionAsk(rc: RunConfig, w: World, paidIn: real)
    requires IsTight(rc) && AtBar(rc.grid, w, FLAT, paidIn) && Fresh(w.g) && w.g.active && w.g.anchor.None?
    requires !DailyTripped(rc.grid, w.g)
    ensures var (w', s) := Ask(rc, w, [FLAT]);
      && Draining(rc.grid, w', s, FLAT, paidIn)
      && Opening(Waiting(s) + w'.g.queue, rc.grid.ahead + rc.grid.behind) && Launched(w.g, w'.g) && w'.b == w.b
  {
    hide Ask, AtBar, InStep, Draining, Decide, Opening, Waiting, DailyTripped, Launched;
    AtFlat(rc.grid, w, paidIn);
    AskLaunches(rc, w);
    SessionOpens(rc.grid, w.g);
    OpeningIsDraining(rc, w, rc.grid.ahead + rc.grid.behind, paidIn);
  }

  lemma FirstAsk(rc: RunConfig, capital: real)
    requires IsTight(rc)
    ensures var (w, s) := Ask(rc, InitialWorld(capital), [FLAT]);
      && Draining(rc.grid, w, s, FLAT, capital)
      && Opening(Waiting(s) + w.g.queue, rc.grid.ahead + rc.grid.behind) && w.g.pendingClose == {}
      && w.b == InitialBroker(capital) && Underway(w.g)
  {
    FirstBarStarts(rc, capital);
    StartTheorem(rc.grid, capital);
    hide InStep, AtBar, Draining, Ask, Opening, Waiting, DailyTripped;
    AskStartsBar(rc, InitialWorld(capital), [FLAT], capital);
    var w1 := InitialWorld(capital).(g := StartBar(InitialGrid, FLAT));
    WithinTheDay(rc, w1.g);
    SessionAsk(rc, w1, capital);
  }

  /** On its first bar such a grid drops a signal if and only if it has more than 24 levels ahead and behind. */
  lemma FirstBarDropsIff(rc: RunConfig, capital: real)
    requires IsTight(rc)
    ensures Drain(rc, BeforeDrain(rc, InitialWorld(capital), FLAT), [FLAT]).dropped
      <==> rc.grid.ahead + rc.grid.behind > 24
  {
    hide Ask, Draining, DrainFrom;
    FirstBarStarts(rc, capital);
    FirstAsk(rc, capital);
    var (w, s) := Ask(rc, InitialWorld(capital), [FLAT]);
    DrainDropsIff(rc, w, [FLAT], s, 0, capital);
    assert |Waiting(s) + w.g.queue| == |Waiting(s)| + |w.g.queue|;
  }

  // ---- What stands after a drain

  /** No order is touched and no stop is hit by a flat bar; every trade costs half a unit to hold. */
  ghost predicate Standing(b: Broker, n: nat) {
    && |b.openTrades| == n && Unrealized(b.openTrades, CLOSE) == -0.5 * n as real
    && (forall p :: p in b.pending ==> !Touched(p, FLAT))
    && (forall t :: t in b.openTrades ==> !StopHit(t, FLAT) && Small(t))
  }

  predicate Small(t: OpenTrade) {
    t.terms.quantity == 1.0 && AbsReal(t.terms.openPrice - CLOSE) <= 0.5
  }

  /** The first `m` of the signals are entered at market, the others rest. */
  ghost predicate Remaining(sigs: seq<Signal>, m: nat) {
    forall i :: 0 <= i < |sigs| ==> Calm(sigs[i]) && (sigs[i].orderType == OrderType.Market <==> i < m)
  }

  ghost predicate SameSession(g: Grid, g': Grid) {
    && SameBar(g, g') && g'.anchor == g.anchor && g'.active == g.active && g'.closing == g.closing
    && g'.pendingClose == g.pendingClose
  }

  lemma RestingStands(w: World, s: Signal, n: nat)
    requires Standing(w.b, n) && s.Entry? && Calm(s) && s.orderType != OrderType.Market
    requires BrokerOk(w.b)
    ensures Standing(PlaceResting(w, s).b, n)
  {
    var b1 := PlacePending(w.b, OrderSideOf(s.key.side), s.units, s.limitPrice, s.stopLoss,
                           s.orderType == OrderType.Stop);
    StampLast(w.b.pending, b1.pending[|w.b.pending|], s.key);
    hide Unrealized, StopHit, Small;
  }

  lemma MarketStands(rc: RunConfig, w: World, s: Signal, n: nat)
    requires IsTight(rc) && Standing(w.b, n) && s.Entry? && Calm(s) && s.orderType == OrderType.Market
    requires BrokerOk(w.b)
    ensures Standing(PlaceAtMarket(rc, w, FLAT, s).b, n + 1)
  {
    FlatFrictions(rc, w.b.draws);
    var side := OrderSideOf(s.key.side);
    var b1 := FillMarket(rc.broker, w.b, FLAT, side, s.units, s.stopLoss);
    var t := b1.openTrades[|w.b.openTrades|];
    hide Friction;
    StampLast(w.b.openTrades, t, s.key);
    var t' := t.(gridKey := Some(s.key));
    assert GrossPnl(side, 1.0, t.terms.openPrice, CLOSE) == -0.5;
    OneMoreStands(w.b, PlaceAtMarket(rc, w, FLAT, s).b, t', n);
  }

  lemma OneMoreStands(b: Broker, b': Broker, t: OpenTrade, n: nat)
    requires Standing(b, n) && b'.openTrades == b.openTrades + [t] && b'.pending == b.pending
    requires !StopHit(t, FLAT) && Small(t) && GrossPnl(t.terms.side, 1.0, t.terms.openPrice, CLOSE) == -0.5
    ensures Standing(b', n + 1)
  {
    assert b'.openTrades[..|b.openTrades|] == b.openTrades;
    hide StopHit, GrossPnl;
  }

  function Less(m: nat): nat {
    if m == 0 then 0 else m - 1
  }

  lemma RestRemains(s: Signal, rest: seq<Signal>, m: nat)
    requires Remaining([s] + rest, m)
    ensures Calm(s) && (s.orderType == OrderType.Market <==> m > 0) && Remaining(rest, Less(m))
  {
    hide Calm;
    assert ([s] + rest)[0] == s;
    assert forall i :: 0 <= i < |rest| ==> rest[i] == ([s] + rest)[i + 1];
  }

  lemma DrainingEntry(c: GridConfig, w: World, s: Signal, paidIn: real)
    requires Draining(c, w, Some(s), FLAT, paidIn)
    ensures s.Entry? && BrokerOk(w.b)
  {
  }

  lemma ProcessStands(rc: RunConfig, w: World, s: Signal, n: nat, m: nat)
    requires IsTight(rc) && Standing(w.b, n) && s.Entry? && Calm(s) && BrokerOk(w.b)
    requires s.orderType == OrderType.Market <==> m > 0
    ensures var w' := ProcessSignal(rc, w, FLAT, s);
      Standing(w'.b, if m > 0 then n + 1 else n) && SameSession(w.g, w'.g) && w'.g.queue == w.g.queue
  {
    if m > 0 {
      MarketStands(rc, w, s, n);
    } else {
      RestingStands(w, s, n);
    }
    hide IsTight, Standing, Calm, BrokerOk;
  }

  lemma RoundStands(rc: RunConfig, w: World, s: Signal, n: nat, m: nat, paidIn: real)
    requires IsTight(rc) && Draining(rc.grid, w, Some(s), FLAT, paidIn)
    requires Standing(w.b, n) && Remaining([s] + w.g.queue, m)
    ensures var (w', s') := Ask(rc, ProcessSignal(rc, w, FLAT, s), [FLAT]);
      && Draining(rc.grid, w', s', FLAT, paidIn) && |Waiting(s')| + |w'.g.queue| == |w.g.queue|
      && Standing(w'.b, if m > 0 then n + 1 else n) && Remaining(Waiting(s') + w'.g.queue, Less(m))
      && SameSession(w.g, w'.g)
  {
    hide IsTight, Standing, Remaining, Calm, Settled, Draining, Agreed, ProcessSignal, Ask, Less;
    RestRemains(s, w.g.queue, m);
    DrainingEntry(rc.grid, w, s, paidIn);
    ProcessStands(rc, w, s, n, m);
    SettledRound(rc, w, [FLAT], s, paidIn);
    SettledProcess(rc, w, FLAT, s, paidIn);
    AskPops(rc, ProcessSignal(rc, w, FLAT, s), [FLAT]);
  }

  lemma {:induction false} DrainStands(rc: RunConfig, w: World, s: Option<Signal>, count: nat, n: nat, m: nat,
                                       paidIn: real)
    requires IsTight(rc) && Draining(rc.grid, w, s, FLAT, paidIn) && count <= MAX_SIGNAL_DRAIN
    requires Standing(w.b, n) && Remaining(Waiting(s) + w.g.queue, m) && m <= |Waiting(s)| + |w.g.queue|
    ensures var d := DrainFrom(rc, w, [FLAT], s, count);
      && SameSession(w.g, d.w.g)
      && (count + |Waiting(s)| + |w.g.queue| <= MAX_SIGNAL_DRAIN ==> Standing(d.w.b, n + m))
    decreases MAX_SIGNAL_DRAIN - count
  {
    hide IsTight, Draining, Standing, Remaining, Ask, ProcessSignal, DrainFrom;
    DrainUnfolds(rc, w, [FLAT], s, count);
    if s.Some? && count < MAX_SIGNAL_DRAIN {
      RoundStands(rc, w, s.value, n, m, paidIn);
      var (w1, s1) := Ask(rc, ProcessSignal(rc, w, FLAT, s.value), [FLAT]);
      DrainStands(rc, w1, s1, count + 1, if m > 0 then n + 1 else n, Less(m), paidIn);
    } else if s.None? {
      NothingWaits(rc.grid, w, FLAT, paidIn);
    }
  }

  lemma NothingWaits(c: GridConfig, w: World, bar: Bar, paidIn: real)
    requires Draining(c, w, None, bar, paidIn)
    ensures w.g.queue == []
  {
  }

  // ---- A whole step

  /** With no key marked for closing, the end of a step changes nothing. */
  lemma NothingToClose(rc: RunConfig, w: World, bar: Bar)
    requires Enumerates(rc) && w.g.pendingClose == {}
    ensures HandleLevelsToClose(rc, w, bar) == w
  {
  }

  lemma LostIsNoAgreement(w: World)
    requires Lost(w)
    ensures !ThreeWay(w)
  {
  }

  lemma OpeningRemains(sigs: seq<Signal>, n: nat)
    requires Opening(sigs, n)
    ensures Remaining(sigs, 2)
  {
  }

  /** The drain of a session that opens over a flat broker, after `count` signals of the bar. */
  lemma OpeningDrains(rc: RunConfig, w: World, s: Option<Signal>, count: nat, paidIn: real)
    requires IsTight(rc) && Enumerates(rc) && Draining(rc.grid, w, s, FLAT, paidIn) && count <= MAX_SIGNAL_DRAIN
    requires Opening(Waiting(s) + w.g.queue, rc.grid.ahead + rc.grid.behind) && w.g.pendingClose == {}
    requires w.b.openTrades == [] && w.b.pending == []
    ensures var d := DrainFrom(rc, w, [FLAT], s, count);
      && HandleLevelsToClose(rc, d.w, FLAT) == d.w && SameSession(w.g, d.w.g)
      && (d.dropped <==> count + 2 + 2 * (rc.grid.ahead + rc.grid.behind) > MAX_SIGNAL_DRAIN)
      && (if d.dropped then !ThreeWay(d.w) else Standing(d.w.b, 2))
  {
    hide Draining, DrainFrom, Calm, HandleLevelsToClose, ThreeWay, Lost;
    OpeningRemains(Waiting(s) + w.g.queue, rc.grid.ahead + rc.grid.behind);
    assert |Waiting(s) + w.g.queue| == |Waiting(s)| + |w.g.queue|;
    assert Standing(w.b, 0);
    DrainStands(rc, w, s, count, 0, 2, paidIn);
    DrainDropsIff(rc, w, [FLAT], s, count, paidIn);
    var d := DrainFrom(rc, w, [FLAT], s, count);
    NothingToClose(rc, d.w, FLAT);
    if d.dropped {
      LostIsNoAgreement(d.w);
    }
  }

  lemma FirstStep(rc: RunConfig, capital: real)
    requires IsTight(rc) && Enumerates(rc)
    ensures var w := GridStep(rc, InitialWorld(capital), [FLAT]);
      if rc.grid.ahead + rc.grid.behind > 24 then !ThreeWay(w)
      else InStep(rc.grid, w, capital) && Standing(w.b, 2) && Underway(w.g)
  {
    FirstBarStarts(rc, capital);
    FirstAsk(rc, capital);
    hide IsTight, Ask, Draining, DrainFrom, Opening, ThreeWay, Standing, HandleLevelsToClose, BeforeDrain, InStep;
    var (w, s) := Ask(rc, InitialWorld(capital), [FLAT]);
    OpeningDrains(rc, w, s, 0, capital);
    if rc.grid.ahead + rc.grid.behind <= 24 {
      StartTheorem(rc.grid, capital);
      StepKeepsAgreement(rc, InitialWorld(capital), [FLAT], capital);
    }
  }

  // ---- The second bar ends the session and opens the next

  /** A flat bar over standing books changes nothing but the floating result. */
  lemma StandingBar(rc: RunConfig, w: World)
    requires Standing(w.b, 2)
    ensures BeforeDrain(rc, w, FLAT) == w.(g := UpdateUnrealized(w.g, -1.0))
  {
    NoneStopped(w.b.openTrades);
    NoneTouched(w.b.pending);
    assert Round2(-1.0) == -1.0 by { RoundInteger(-100); }
  }

  lemma {:induction false} NoneStopped(ts: seq<OpenTrade>)
    requires forall t :: t in ts ==> !StopHit(t, FLAT)
    ensures StoppedOut(ts, FLAT) == []
  {
    if ts != [] {
      NoneStopped(ts[..|ts|-1]);
    }
  }

  lemma {:induction false} NoneTouched(ps: seq<PendingOrder>)
    requires forall p :: p in ps ==> !Touched(p, FLAT)
    ensures Triggered(ps, FLAT) == []
  {
    if ps != [] {
      NoneTouched(ps[..|ps|-1]);
    }
  }

  /** Closing one of these trades costs the day at most two. */
  lemma CloseIsCheap(rc: RunConfig, w: World, id: nat)
    requires IsTight(rc) && forall t :: t in w.b.openTrades ==> Small(t)
    ensures var w' := CloseAndBank(rc, w, FLAT, id);
      && w'.g.dailyRealized >= w.g.dailyRealized - 2.0
      && forall t :: t in w'.b.openTrades ==> Small(t)
  {
    var found := FindTrade(w.b.openTrades, id);
    if found.Some? {
      var t := found.value;
      FlatFrictions(rc, w.b.draws);
      var side := t.terms.side;
      var gross := GrossPnl(side, t.terms.quantity, t.terms.openPrice,
                            Friction(rc.broker, w.b.draws, Opposite(side), CLOSE));
      assert gross >= -1.0;
      Round2Near(gross);
      var b1 := CloseAtMarket(rc.broker, w.b, FLAT, t);
      LookupLatest(w.b.closed, b1.closed[|w.b.closed|]);
      forall x | x in b1.openTrades ensures Small(x) {
        RemoveMember(w.b.openTrades, t, x);
      }
    }
  }

  lemma {:induction false} CloseEachIsCheap(rc: RunConfig, w: World, trades: seq<OpenTrade>)
    requires IsTight(rc) && forall t :: t in w.b.openTrades ==> Small(t)
    ensures var w' := CloseEach(rc, w, FLAT, trades);
      && w'.g.dailyRealized >= w.g.dailyRealized - 2.0 * |trades| as real
      && forall t :: t in w'.b.openTrades ==> Small(t)
  {
    if trades != [] {
      hide CloseAndBank, Small, IsTight;
      CloseEachIsCheap(rc, w, trades[..|trades|-1]);
      CloseIsCheap(rc, CloseEach(rc, w, FLAT, trades[..|trades|-1]), trades[|trades|-1].id);
    }
  }

  /** The session that floats at minus one ends by its loss limit. */
  lemma SecondAsk(rc: RunConfig, w: World, paidIn: real)
    requires IsTight(rc) && InStep(rc.grid, w, paidIn) && Underway(w.g) && w.g.sessionUnrealized == -1.0
    ensures var (w', s) := Ask(rc, w, [FLAT]);
      && s == Some(CloseAll("session_loss_limit")) && Asked(rc.grid, w', s, paidIn)
      && w' == w.(g := TriggerCloseAll(w.g, "session_loss_limit"))
  {
    assert StartBar(w.g, FLAT) == w.g;
    AskKeeps(rc, w, [FLAT], paidIn);
  }

  /** The close-all leaves a fresh grid that is still within its daily limit. */
  lemma RestartIsFresh(rc: RunConfig, w: World, paidIn: real)
    requires IsTight(rc) && Sound(w, paidIn) && w.g.anchor.Some? && w.g.active && w.g.price == CLOSE
      && w.g.dailyRealized == 0.0
    requires Standing(w.b, 2)
    ensures var w' := CloseAllTrades(rc, w, FLAT);
      && Fresh(w'.g) && w'.g.active && w'.g.anchor.None? && !DailyTripped(rc.grid, w'.g)
      && w'.b.openTrades == [] && w'.b.pending == []
  {
    CloseAllKeeps(rc, w, FLAT, paidIn);
    CloseEachIsCheap(rc, CancelEverything(w), w.b.openTrades);
    hide CloseEach, Small, Sound;
  }

  lemma SecondSession(rc: RunConfig, w: World, paidIn: real)
    requires IsTight(rc) && Asked(rc.grid, w, Some(CloseAll("session_loss_limit")), paidIn) && Standing(w.b, 2)
    requires w.g.anchor.Some? && w.g.active && w.g.price == CLOSE && w.g.date == "day" && w.g.dailyRealized == 0.0
    ensures var (w', s) := Ask(rc, ProcessSignal(rc, w, FLAT, CloseAll("session_loss_limit")), [FLAT]);
      && Draining(rc.grid, w', s, FLAT, paidIn)
      && Opening(Waiting(s) + w'.g.queue, rc.grid.ahead + rc.grid.behind) && w'.g.pendingClose == {}
      && w'.b.openTrades == [] && w'.b.pending == []
  {
    RestartIsFresh(rc, w, paidIn);
    CloseAllKeeps(rc, w, FLAT, paidIn);
    hide CloseAllTrades, Opening, Draining, Asked, Fresh, DailyTripped, Standing, Agreed, Ask;
    SessionAsk(rc, CloseAllTrades(rc, w, FLAT), paidIn);
  }

  lemma SecondStep(rc: RunConfig, w: World, paidIn: real)
    requires IsTight(rc) && Enumerates(rc) && rc.grid.ahead + rc.grid.behind == 24
    requires InStep(rc.grid, w, paidIn) && Standing(w.b, 2) && Underway(w.g)
    ensures !ThreeWay(GridStep(rc, w, [FLAT]))
  {
    StandingBar(rc, w);
    InStepSurvives(rc.grid, w, paidIn);
    UnrealizedKeepsAgreement(rc.grid, w, -1.0, {}, paidIn);
    InStepSurvives(rc.grid, w.(g := UpdateUnrealized(w.g, -1.0)), paidIn);
    var w1 := w.(g := UpdateUnrealized(w.g, -1.0));
    SecondAsk(rc, w1, paidIn);
    var s := CloseAll("session_loss_limit");
    var w2 := w1.(g := TriggerCloseAll(w1.g, "session_loss_limit"));
    hide IsTight, Ask, ProcessSignal, DrainFrom, Opening, ThreeWay, Standing, HandleLevelsToClose, BeforeDrain, InStep,
      Asked, Draining;
    SecondSession(rc, w2, paidIn);
    var (w3, s3) := Ask(rc, ProcessSignal(rc, w2, FLAT, s), [FLAT]);
    OpeningDrains(rc, w3, s3, 1, paidIn);
    DrainUnfolds(rc, w2, [FLAT], Some(s), 0);
  }

  // ---- The exact bound

  lemma TwoFlatBars(rc: RunConfig, capital: real)
    requires IsTight(rc) && Enumerates(rc) && rc.grid.ahead + rc.grid.behind >= 24
    ensures var bars := [FLAT, FLAT, FLAT];
      !ThreeWay(Replay(rc, capital, bars, 1, 1)) || !ThreeWay(Replay(rc, capital, bars, 1, 2))
  {
    var bars := [FLAT, FLAT, FLAT];
    hide ThreeWay, IsTight, Standing, InStep, GridStep, Underway;
    FirstStep(rc, capital);
    assert Visible(bars, 1, 1) == [FLAT] && Visible(bars, 2, 1) == [FLAT];
    assert Replay(rc, capital, bars, 1, 1) == GridStep(rc, InitialWorld(capital), [FLAT]);
    if rc.grid.ahead + rc.grid.behind == 24 {
      SecondStep(rc, Replay(rc, capital, bars, 1, 1), capital);
    }
  }

  /**
   Main result: such a grid keeps the three copies in agreement in every run if and only if it has at most 23 levels.
   */
  lemma TwentyThreeIsSharp(rc: RunConfig, capital: real)
    requires IsTight(rc) && Enumerates(rc)
    ensures rc.grid.ahead + rc.grid.behind <= 23 <==>
      forall bars, count: nat, n: nat :: 1 <= count && count + n <= |bars| ==>
        ThreeWay(Replay(rc, capital, bars, count, n))
  {
    hide ThreeWay, Replay;
    if rc.grid.ahead + rc.grid.behind <= 23 {
      forall bars, count: nat, n: nat | 1 <= count && count + n <= |bars|
        ensures ThreeWay(Replay(rc, capital, bars, count, n))
      {
        ThreeWayAgreement(rc, capital, bars, count, n);
      }
    } else {
      TwoFlatBars(rc, capital);
    }
  }
}
