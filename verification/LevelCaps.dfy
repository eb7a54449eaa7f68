/** How far the directional caps on live levels hold, in every run and with any settings. */
module LevelCaps {
  import opened Market
  import opened Rounding
  import opened GridModel
  import opened BrokerModel
  import opened RunnerModel
  import opened MarketData
  import opened Agreement
  import opened DrainAgreement
  import opened StepAgreement
  import opened Quiescence
  import opened GridRun
  import opened EveryRun
  import opened CutDrains
  import opened AgreementIff

  // ---- A decision brings the levels within their caps

  /** In session, every live level beyond a cap is retired. */
  ghost predicate Tame(c: GridConfig, g: Grid) {
    g.anchor.Some? && g.active && !g.closing ==> WithinCaps(c, g)
  }

  lemma PopTames(c: GridConfig, g: Grid)
    requires Tame(c, g)
    ensures Tame(c, PopSignal(g).0)
  {
    var g' := PopSignal(g).0;
    if g.anchor.Some? {
      assert ActiveAbove(g') == ActiveAbove(g) && ActiveBelow(g') == ActiveBelow(g);
      SameActiveSameCaps(c, g, g');
    }
    hide WithinCaps;
  }

  lemma DecideTames(c: GridConfig, g: Grid)
    requires g.anchor.None? ==> g.filled == {}
    ensures Tame(c, Decide(c, g).0)
  {
    hide InitSession, Trim, Maintain, PopSignal, DailyTripped, SessionExit, WithinCaps;
    if g.active && !DailyTripped(c, g) && SessionExit(c, g).None? {
      if g.anchor.None? {
        InitIsWithinCaps(c, g);
        PopTames(c, InitSession(c, g));
      } else {
        SlideIsWithinCaps(c, g);
        PopTames(c, Maintain(c, Trim(c, g)));
      }
    }
  }

  /** A call with nothing queued decides; a call at the same bar with something queued only pops. */
  lemma GenerateTames(c: GridConfig, g: Grid, bars: seq<Bar>)
    requires bars != [] && g.queue == [] && (g.anchor.None? ==> g.filled == {})
    ensures Tame(c, Generate(c, g, bars).0)
  {
    var g1 := StartBar(g, bars[|bars|-1]);
    assert g1.queue == [] && (g1.anchor.None? ==> g1.filled == {});
    hide Decide, StartBar, WithinCaps;
    if !g1.closing {
      DecideTames(c, g1);
    }
  }

  /** What waits, waits in a session. */
  lemma QueuedInSession(c: GridConfig, w: World, lost: set<Key>, paidIn: real)
    requires Surviving(c, w, lost, paidIn) && w.g.queue != []
    ensures w.g.anchor.Some? && w.g.active && !w.g.closing && w.g.queue[0].Entry?
  {
    NothingHeldNothingQueued(c, w.g, w.om.Keys + lost);
    hide Sound;
  }

  /** Without an anchor no side is filled. */
  lemma UnanchoredIsEmpty(c: GridConfig, w: World, lost: set<Key>, paidIn: real)
    requires Surviving(c, w, lost, paidIn)
    ensures w.g.anchor.None? ==> w.g.filled == {}
  {
    hide Sound, SidesOk;
  }

  // ---- A drain

  lemma AnchorFillTames(c: GridConfig, g: Grid, k: Key)
    requires Tame(c, g) && (g.anchor.Some? ==> k.level == Cents(g.anchor.value))
    ensures Tame(c, ReportFill(g, k))
  {
    if g.anchor.Some? {
      AnchorFillKeepsActive(g, k);
      SameActiveSameCaps(c, g, ReportFill(g, k));
    }
    hide WithinCaps, ActiveAbove, ActiveBelow;
  }

  /** An entry leaves the queue, the course and the caps as they are. */
  lemma EntryTames(rc: RunConfig, w: World, bar: Bar, s: Signal)
    requires InHand(w, Some(s)) && s.Entry?
    ensures var w' := ProcessSignal(rc, w, bar, s);
      && w'.g.queue == w.g.queue && w'.g.active == w.g.active && (Tame(rc.grid, w.g) ==> Tame(rc.grid, w'.g))
  {
    RestOfMarkets(w.g, s, w.g.queue);
    hide Rests, FillMarket, Stamp, WithinCaps, MarketsAtAnchor;
    if s.orderType == OrderType.Market && Tame(rc.grid, w.g) {
      AnchorFillTames(rc.grid, w.g, s.key);
    }
    hide Tame;
  }

  /** The levels are within their caps, or so little waits that the drain gets to decide. */
  ghost predicate Decides(c: GridConfig, w: World, s: Option<Signal>, count: nat) {
    Tame(c, w.g) || (s.Some? && s.value.Entry? && count + 1 + |w.g.queue| <= MAX_SIGNAL_DRAIN)
  }

  lemma AskDecides(rc: RunConfig, w: World, bars: seq<Bar>, count: nat, lost: set<Key>, paidIn: real)
    requires bars != [] && Surviving(rc.grid, w, lost, paidIn)
    requires (Tame(rc.grid, w.g) && w.g.price == bars[|bars|-1].close && w.g.date == bars[|bars|-1].date)
      || count + |w.g.queue| <= MAX_SIGNAL_DRAIN
    ensures var (w', s) := Ask(rc, w, bars); Decides(rc.grid, w', s, count)
  {
    hide Generate, Surviving, Tame, StartBar;
    if w.g.queue == [] {
      UnanchoredIsEmpty(rc.grid, w, lost, paidIn);
      GenerateTames(rc.grid, w.g, bars);
    } else {
      QueuedInSession(rc.grid, w, lost, paidIn);
      GeneratePops(rc.grid, w.g, bars);
      if count + |w.g.queue| > MAX_SIGNAL_DRAIN {
        SameBarAgain(w.g, bars[|bars|-1]);
        PopTames(rc.grid, w.g);
      }
    }
  }

  lemma RoundDecides(rc: RunConfig, w: World, bars: seq<Bar>, s: Signal, count: nat, lost: set<Key>, paidIn: real)
    requires bars != [] && InHand(w, Some(s)) && Decides(rc.grid, w, Some(s), count)
    requires w.g.price == bars[|bars|-1].close && w.g.date == bars[|bars|-1].date
    requires var w1 := ProcessSignal(rc, w, bars[|bars|-1], s);
      Surviving(rc.grid, w1, lost, paidIn) && w1.g.price == w.g.price && w1.g.date == w.g.date
    ensures var (w2, s2) := Ask(rc, ProcessSignal(rc, w, bars[|bars|-1], s), bars);
      Decides(rc.grid, w2, s2, count + 1)
  {
    hide Ask, Surviving, InHand, CloseAllTrades, PlaceAtMarket, PlaceResting;
    var w1 := ProcessSignal(rc, w, bars[|bars|-1], s);
    if s.Entry? {
      hide ProcessSignal, Tame;
      EntryTames(rc, w, bars[|bars|-1], s);
    } else {
      CloseAllFlattens(rc, w, bars[|bars|-1]);
      hide WithinCaps, ProcessSignal;
      assert Tame(rc.grid, w1.g);
    }
    AskDecides(rc, w1, bars, count + 1, lost, paidIn);
  }

  lemma {:induction false} DrainTames(rc: RunConfig, w: World, bars: seq<Bar>, s: Option<Signal>, count: nat,
                                      lost: set<Key>, paidIn: real)
    requires bars != [] && Held(rc.grid, w, s, lost, paidIn) && InHand(w, s) && Decides(rc.grid, w, s, count)
    requires w.g.price == bars[|bars|-1].close && w.g.date == bars[|bars|-1].date
    ensures Tame(rc.grid, DrainFrom(rc, w, bars, s, count).w.g)
    decreases MAX_SIGNAL_DRAIN - count
  {
    hide DrainFrom, Ask, ProcessSignal, Held, Surviving, InHand, Orderly, Tame;
    DrainUnfolds(rc, w, bars, s, count);
    if s.Some? && count < MAX_SIGNAL_DRAIN {
      hide Decides;
      var bar := bars[|bars|-1];
      var fewer := ProcessSurvives(rc, w, bar, s.value, lost, paidIn);
      ProcessKeepsOrder(rc, w, bar, s.value);
      var w1 := ProcessSignal(rc, w, bar, s.value);
      RoundDecides(rc, w, bars, s.value, count, fewer, paidIn);
      SameBarFits(w1.g, bar);
      AskSurvives(rc, w1, bars, fewer, paidIn);
      AskKeepsOrder(rc, w1, bars);
      DrainTames(rc, Ask(rc, w1, bars).0, bars, Ask(rc, w1, bars).1, count + 1, fewer, paidIn);
    }
  }

  lemma SameBarFits(g: Grid, bar: Bar)
    requires g.price == bar.close && g.date == bar.date
    ensures BarFits(g, bar)
  {
  }

  // ---- A step

  /** A step that at most 50 left-over signals precede ends within the caps, unless a close-all waits. */
  lemma StepIsBounded(rc: RunConfig, w: World, bars: seq<Bar>, lost: set<Key>, paidIn: real)
    requires bars != [] && BetweenSteps(rc.grid, w, lost, paidIn) && Orderly(w) && Enumerates(rc)
    requires |w.g.queue| <= MAX_SIGNAL_DRAIN
    ensures var w' := GridStep(rc, w, bars); w'.g.closing || Exposure(rc.grid, w'.g)
  {
    hide BeforeDrain, Ask, DrainFrom, HandleLevelsToClose, Surviving, Held, InHand, Orderly, Tame, Exposure, Decides;
    var bar := bars[|bars|-1];
    BeforeDrainSurvives(rc, w, bar, lost, paidIn);
    BarKeepsOrder(rc, w, bar);
    var w1 := BeforeDrain(rc, w, bar);
    BarSurvives(rc, w, bars, lost, paidIn);
    AskKeepsOrder(rc, w1, bars);
    AskDecides(rc, w1, bars, 0, lost, paidIn);
    var (w2, s) := Ask(rc, w1, bars);
    DrainTames(rc, w2, bars, s, 0, lost, paidIn);
    var left := DrainSurvives(rc, w2, bars, s, 0, lost, paidIn);
    var w3 := Drain(rc, w1, bars).w;
    TrimSurvives(rc, w3, bar, left, paidIn);
    if !w3.g.closing {
      TameIsBounded(rc.grid, w3, HandleLevelsToClose(rc, w3, bar).g, left, paidIn);
    }
  }

  lemma TameIsBounded(c: GridConfig, w: World, g': Grid, lost: set<Key>, paidIn: real)
    requires Surviving(c, w, lost, paidIn) && Tame(c, w.g) && !w.g.closing
    requires g'.filled == w.g.filled - w.g.pendingClose && g'.anchor == w.g.anchor && g'.price == w.g.price
    ensures Exposure(c, g')
  {
    hide Sound, SidesOk, Exposure, WithinCaps;
    MarkedGoneIsBounded(c, w.g, g', w.om.Keys + lost, w.g.queue);
  }

  // ---- A bar that never gets to decide

  /** The same levels held beside the same anchor at the same price, and the same trims to do. */
  ghost predicate SameHeld(g: Grid, g': Grid) {
    && g.anchor.Some? && g'.anchor == g.anchor && g'.price == g.price && g'.pendingClose == g.pendingClose
    && HeldAbove(g') == HeldAbove(g) && HeldBelow(g') == HeldBelow(g)
  }

  lemma SameHeldSameCaps(c: GridConfig, g: Grid, g': Grid)
    requires SameHeld(g, g')
    ensures Exposure(c, g) <==> Exposure(c, g')
  {
    hide HeldAbove, HeldBelow;
  }

  lemma AnchorFillHolds(g: Grid, k: Key)
    requires g.anchor.Some? && k.level == Cents(g.anchor.value)
    ensures SameHeld(g, ReportFill(g, k))
  {
    var g' := ReportFill(g, k);
    forall x ensures x in HeldAbove(g) <==> x in HeldAbove(g') {
      assert forall l :: l in g'.filled && l.level > k.level ==> l in g.filled;
    }
    forall x ensures x in HeldBelow(g) <==> x in HeldBelow(g') {
      assert forall l :: l in g'.filled && l.level < k.level ==> l in g.filled;
    }
  }

  lemma EntryHolds(rc: RunConfig, w: World, bar: Bar, s: Signal)
    requires InHand(w, Some(s)) && s.Entry?
    ensures SameHeld(w.g, ProcessSignal(rc, w, bar, s).g)
  {
    RestOfMarkets(w.g, s, w.g.queue);
    hide FillMarket, Stamp, MarketsAtAnchor, SameHeld;
    if s.orderType == OrderType.Market {
      AnchorFillHolds(w.g, s.key);
    } else {
      NothingHeldAnew(w.g);
    }
    hide ReportFill;
  }

  lemma NothingHeldAnew(g: Grid)
    requires g.anchor.Some?
    ensures SameHeld(g, g)
  {
  }

  lemma SameHeldJoins(g: Grid, g1: Grid, g2: Grid)
    requires SameHeld(g, g1) && SameHeld(g1, g2)
    ensures SameHeld(g, g2)
  {
    hide HeldAbove, HeldBelow;
  }

  /** A call that only pops leaves what is held, measured at the bar's close. */
  lemma PopHolds(rc: RunConfig, w: World, bars: seq<Bar>, lost: set<Key>, paidIn: real)
    requires bars != [] && Surviving(rc.grid, w, lost, paidIn) && w.g.queue != []
    ensures var (w', s) := Ask(rc, w, bars);
      && s.Some? && s.value.Entry? && |w'.g.queue| == |w.g.queue| - 1
      && SameHeld(w.g.(price := bars[|bars|-1].close), w'.g)
  {
    QueuedInSession(rc.grid, w, lost, paidIn);
    GeneratePops(rc.grid, w.g, bars);
    hide Generate, StartBar, Surviving;
    var g' := Ask(rc, w, bars).0.g;
    var g := w.g.(price := bars[|bars|-1].close);
    assert g'.filled == g.filled && g'.anchor == g.anchor;
    assert HeldAbove(g') == HeldAbove(g) && HeldBelow(g') == HeldBelow(g);
  }

  /** A drain that starts with at least 50 signals behind the one in hand hands out entries only. */
  lemma {:induction false} DrainSkips(rc: RunConfig, w: World, bars: seq<Bar>, s: Signal, count: nat, lost: set<Key>,
                                      paidIn: real)
    requires bars != [] && Held(rc.grid, w, Some(s), lost, paidIn) && InHand(w, Some(s)) && s.Entry?
    requires count + |w.g.queue| >= MAX_SIGNAL_DRAIN && w.g.anchor.Some?
    requires w.g.price == bars[|bars|-1].close && w.g.date == bars[|bars|-1].date
    ensures SameHeld(w.g, DrainFrom(rc, w, bars, Some(s), count).w.g)
    decreases MAX_SIGNAL_DRAIN - count
  {
    hide DrainFrom, Ask, ProcessSignal, Held, Surviving, InHand, Orderly, SameHeld, Tame;
    DrainUnfolds(rc, w, bars, Some(s), count);
    if count >= MAX_SIGNAL_DRAIN {
      NothingHeldAnew(w.g);
    } else {
      var bar := bars[|bars|-1];
      EntrySurvives(rc, w, bar, s, lost, paidIn);
      ProcessKeepsOrder(rc, w, bar, s);
      EntryTames(rc, w, bar, s);
      EntryHolds(rc, w, bar, s);
      var w1 := ProcessSignal(rc, w, bar, s);
      SameBarFits(w1.g, bar);
      AskSurvives(rc, w1, bars, lost, paidIn);
      AskKeepsOrder(rc, w1, bars);
      PopHolds(rc, w1, bars, lost, paidIn);
      var (w2, s2) := Ask(rc, w1, bars);
      assert w1.g.(price := bar.close) == w1.g;
      SameHeldJoins(w.g, w1.g, w2.g);
      SameHeldIsAnchored(w1.g, w2.g);
      DrainSkips(rc, w2, bars, s2.value, count + 1, lost, paidIn);
      SameHeldJoins(w.g, w2.g, DrainFrom(rc, w2, bars, s2, count + 1).w.g);
    }
  }

  lemma SameHeldIsAnchored(g: Grid, g': Grid)
    requires SameHeld(g, g')
    ensures g'.anchor.Some? && g'.pendingClose == g.pendingClose
  {
  }

  /** With nothing to trim, the end of a step leaves what is held. */
  lemma NothingTrimmedHolds(rc: RunConfig, w: World, bar: Bar, lost: set<Key>, paidIn: real)
    requires Surviving(rc.grid, w, lost, paidIn) && Enumerates(rc) && w.g.pendingClose == {} && w.g.anchor.Some?
    ensures SameHeld(w.g, HandleLevelsToClose(rc, w, bar).g)
  {
    TrimSurvives(rc, w, bar, lost, paidIn);
    hide HandleLevelsToClose, Surviving;
    var g' := HandleLevelsToClose(rc, w, bar).g;
    assert g'.filled == w.g.filled;
    assert HeldAbove(g') == HeldAbove(w.g) && HeldBelow(g') == HeldBelow(w.g);
  }

  /** A bar that more than 50 left-over signals precede trims nothing: it ends within the caps iff its fills were. */
  lemma UndecidedBarIff(rc: RunConfig, w: World, bars: seq<Bar>, lost: set<Key>, paidIn: real)
    requires bars != [] && BetweenSteps(rc.grid, w, lost, paidIn) && Orderly(w) && Enumerates(rc)
    requires |w.g.queue| > MAX_SIGNAL_DRAIN
    ensures Exposure(rc.grid, GridStep(rc, w, bars).g)
      <==> Exposure(rc.grid, BeforeDrain(rc, w, bars[|bars|-1]).g.(price := bars[|bars|-1].close))
  {
    hide BeforeDrain, Ask, DrainFrom, HandleLevelsToClose, Surviving, Held, InHand, Orderly, SameHeld, Exposure;
    var bar := bars[|bars|-1];
    BeforeDrainSurvives(rc, w, bar, lost, paidIn);
    BarKeepsOrder(rc, w, bar);
    BarSurvives(rc, w, bars, lost, paidIn);
    var w1 := BeforeDrain(rc, w, bar);
    AskKeepsOrder(rc, w1, bars);
    PopHolds(rc, w1, bars, lost, paidIn);
    var (w2, s) := Ask(rc, w1, bars);
    var g := w1.g.(price := bar.close);
    SameHeldIsAnchored(g, w2.g);
    DrainSkips(rc, w2, bars, s.value, 0, lost, paidIn);
    var w3 := Drain(rc, w1, bars).w;
    SameHeldJoins(g, w2.g, w3.g);
    SameHeldIsAnchored(w2.g, w3.g);
    var left := DrainSurvives(rc, w2, bars, s, 0, lost, paidIn);
    NothingTrimmedHolds(rc, w3, bar, left, paidIn);
    SameHeldJoins(g, w3.g, HandleLevelsToClose(rc, w3, bar).g);
    SameHeldSameCaps(rc.grid, g, HandleLevelsToClose(rc, w3, bar).g);
  }

  // ---- Runs

  /**
   Main result: with any settings, after every bar that at most 50 left-over signals precede, the live levels are within
   the directional caps and the trades are few, unless a close-all waits.
   */
  lemma DecidedBarIsBounded(rc: RunConfig, capital: real, bars: seq<Bar>, count: nat, n: nat)
    requires 1 <= count && count + n < |bars| && Enumerates(rc)
    requires |Replay(rc, capital, bars, count, n).g.queue| <= MAX_SIGNAL_DRAIN
    ensures var w := Replay(rc, capital, bars, count, n + 1);
      w.g.closing || (Exposure(rc.grid, w.g) && |w.b.openTrades| <= 2 * (rc.grid.ahead + rc.grid.behind + 1))
  {
    hide GridStep, BetweenSteps, Orderly, MapsAgree, Exposure, Enumerates;
    var lost := RunSurvives(rc, capital, bars, count, n);
    RunIsOrderly(rc, capital, bars, count, n);
    StepIsBounded(rc, Replay(rc, capital, bars, count, n), Visible(bars, count + n, count), lost, capital);
    WhatADropCosts(rc, capital, bars, count, n + 1);
    var w := Replay(rc, capital, bars, count, n + 1);
    if Exposure(rc.grid, w.g) {
      FewOpenTrades(rc.grid, w);
    }
  }

  /** Main result: in every run whose drains were not cut short the caps hold after every step. */
  lemma BoundedExposure(rc: RunConfig, capital: real, bars: seq<Bar>, count: nat, n: nat)
    requires 1 <= count && count + n <= |bars| && Enumerates(rc) && Cuts(rc, capital, bars, count, n) == 0
    ensures var w := Replay(rc, capital, bars, count, n);
      && Between(rc.grid, w, capital) && |w.b.openTrades| <= 2 * (rc.grid.ahead + rc.grid.behind + 1)
  {
    hide Replay, Cuts, InStep, Exposure, Enumerates, ThreeWay;
    RunAgreesUncut(rc, capital, bars, count, n);
    var w := Replay(rc, capital, bars, count, n);
    InStepIsClear(rc.grid, w, capital);
    if n == 0 {
      StartIsBounded(rc, capital, bars, count);
    } else {
      CutsGrow(rc, capital, bars, count, n - 1);
      RunAgreesUncut(rc, capital, bars, count, n - 1);
      InStepIsClear(rc.grid, Replay(rc, capital, bars, count, n - 1), capital);
      DecidedBarIsBounded(rc, capital, bars, count, n - 1);
    }
  }

  lemma InStepIsClear(c: GridConfig, w: World, paidIn: real)
    requires InStep(c, w, paidIn)
    ensures w.g.queue == [] && !w.g.closing
  {
  }

  lemma CutsGrow(rc: RunConfig, capital: real, bars: seq<Bar>, count: nat, n: nat)
    requires 1 <= count && count + n < |bars|
    ensures Cuts(rc, capital, bars, count, n) <= Cuts(rc, capital, bars, count, n + 1)
  {
    hide CutShort, Replay;
  }

  lemma StartIsBounded(rc: RunConfig, capital: real, bars: seq<Bar>, count: nat)
    requires 1 <= count <= |bars|
    ensures var w := Replay(rc, capital, bars, count, 0); Exposure(rc.grid, w.g) && w.b.openTrades == []
  {
  }

  /** Main result: in every run, with any settings and however many signals are dropped, the anchor is never retired. */
  lemma AnchorIsNeverRetired(rc: RunConfig, capital: real, bars: seq<Bar>, count: nat, n: nat)
    requires 1 <= count && count + n <= |bars|
    ensures var g := Replay(rc, capital, bars, count, n).g; g.anchor.Some? ==> Cents(g.anchor.value) !in g.retired
  {
    RunIsOrderly(rc, capital, bars, count, n);
    hide Replay;
  }
}
