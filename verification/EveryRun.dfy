/**
 What every backtest run keeps, with any settings, on any bars and in any order of the trims, whether or not its drains
 drop signals.
 */
module EveryRun {
  import opened Market
  import opened GridModel
  import opened BrokerModel
  import opened RunnerModel
  import opened MarketData
  import opened Agreement
  import opened DrainAgreement
  import opened Quiescence
  import opened RetiredLevels

  /** No open trade and no resting order. */
  predicate Flat(b: Broker) {
    b.openTrades == [] && b.pending == []
  }

  /** Without an anchor, or paused with no close-all under way. */
  predicate Idle(g: Grid) {
    g.anchor.None? || (!g.active && !g.closing)
  }

  /** An idle strategy queues nothing and its broker is flat; a close-all under way has an anchor and an empty queue. */
  predicate Rests(g: Grid, flat: bool) {
    && (Idle(g) ==> flat && g.queue == [])
    && (g.closing ==> g.anchor.Some? && g.queue == [])
  }

  ghost predicate Orderly(w: World) {
    Rests(w.g, Flat(w.b)) && Purged(w.g) && MarketsAtAnchor(w.g, w.g.queue)
  }

  // ---- Callbacks

  /** What changes no course and leaves a flat broker flat keeps order. */
  lemma CourseKeepsOrder(w: World, w': World)
    requires Orderly(w) && SameCourse(w.g, w'.g) && (Flat(w.b) ==> Flat(w'.b))
    ensures Orderly(w')
  {
  }

  lemma {:induction false} FillsKeepCourse(w: World, fills: seq<OpenTrade>)
    ensures SameCourse(w.g, HandleFills(w, fills).g)
  {
    if fills != [] {
      FillsKeepCourse(w, fills[..|fills|-1]);
    }
  }

  lemma {:induction false} ClosuresKeepCourse(w: World, closures: seq<ClosedTrade>)
    ensures SameCourse(w.g, HandleClosures(w, closures).g)
  {
    if closures != [] {
      ClosuresKeepCourse(w, closures[..|closures|-1]);
    }
  }

  lemma BarKeepsCourse(rc: RunConfig, w: World, bar: Bar)
    ensures SameCourse(w.g, BeforeDrain(rc, w, bar).g)
  {
    hide ProcessBar, NewFills, NewClosures, Unrealized, HandleFills, HandleClosures;
    var w1 := w.(b := ProcessBar(rc.broker, w.b, bar));
    FillsKeepCourse(w1, NewFills(rc.broker, w.b, bar));
    ClosuresKeepCourse(HandleFills(w1, NewFills(rc.broker, w.b, bar)), NewClosures(rc.broker, w.b, bar));
  }

  /** A bar over a flat broker changes nothing there. */
  lemma BarOverFlat(rc: RunConfig, w: World, bar: Bar)
    requires Flat(w.b)
    ensures BeforeDrain(rc, w, bar).b == w.b
  {
    assert ProcessBar(rc.broker, w.b, bar) == w.b;
    assert NewFills(rc.broker, w.b, bar) == [] && NewClosures(rc.broker, w.b, bar) == [];
  }

  lemma BarKeepsOrder(rc: RunConfig, w: World, bar: Bar)
    requires Orderly(w)
    ensures Orderly(BeforeDrain(rc, w, bar))
  {
    BarKeepsCourse(rc, w, bar);
    if Flat(w.b) {
      BarOverFlat(rc, w, bar);
    }
    hide BeforeDrain, Orderly;
    CourseKeepsOrder(w, BeforeDrain(rc, w, bar));
  }

  // ---- Trims

  lemma TrimKeepsCourse(rc: RunConfig, w: World, bar: Bar, k: Key)
    ensures SameCourse(w.g, TrimKey(rc, w, bar, k).g)
    ensures Flat(w.b) ==> Flat(TrimKey(rc, w, bar, k).b)
  {
    hide CloseAtMarket, Lookup, KeysAt;
    var w1 := if k in w.om then w.(om := w.om - {k}, b := w.b.(pending := RemoveById(w.b.pending, w.om[k]))) else w;
    assert SameCourse(w.g, w1.g) && (Flat(w.b) ==> Flat(w1.b));
    hide RemoveById;
  }

  lemma {:induction false} TrimsKeepCourse(rc: RunConfig, w: World, bar: Bar, keys: seq<Key>)
    ensures SameCourse(w.g, TrimKeys(rc, w, bar, keys).g)
    ensures Flat(w.b) ==> Flat(TrimKeys(rc, w, bar, keys).b)
  {
    if keys != [] {
      hide TrimKey, Flat;
      TrimsKeepCourse(rc, w, bar, keys[..|keys|-1]);
      TrimKeepsCourse(rc, TrimKeys(rc, w, bar, keys[..|keys|-1]), bar, keys[|keys|-1]);
    }
  }

  lemma StepEndKeepsCourse(rc: RunConfig, w: World, bar: Bar)
    ensures SameCourse(w.g, HandleLevelsToClose(rc, w, bar).g)
    ensures Flat(w.b) ==> Flat(HandleLevelsToClose(rc, w, bar).b)
  {
    TrimsKeepCourse(rc, w.(g := w.g.(pendingClose := {})), bar, rc.enumerate(w.g.pendingClose));
  }

  // ---- The liquidation

  lemma BankKeepsCourse(w: World, id: nat, pnl: real)
    ensures SameCourse(w.g, Bank(w, id, pnl).g) && Bank(w, id, pnl).b == w.b
  {
  }

  /** The first open trade is found by its id whatever other trades share it. */
  lemma CloseTheFirst(rc: RunConfig, w: World, bar: Bar)
    requires w.b.openTrades != []
    ensures var w' := CloseAndBank(rc, w, bar, w.b.openTrades[0].id);
      && w'.b.openTrades == w.b.openTrades[1..] && w'.b.pending == w.b.pending && SameCourse(w.g, w'.g)
  {
    hide Bank, Lookup, Friction;
    var b1 := CloseTrade(rc.broker, w.b, bar, w.b.openTrades[0].id).value;
    var info := Lookup(b1.closed, w.b.openTrades[0].id);
    if info.Some? {
      BankKeepsCourse(w.(b := b1), w.b.openTrades[0].id, info.value.pnl);
    }
  }

  lemma {:induction false} CloseEachDrops(rc: RunConfig, w: World, bar: Bar, n: nat)
    requires n <= |w.b.openTrades|
    ensures var w' := CloseEach(rc, w, bar, w.b.openTrades[..n]);
      && w'.b.openTrades == w.b.openTrades[n..] && w'.b.pending == w.b.pending && SameCourse(w.g, w'.g)
  {
    if n > 0 {
      hide CloseAndBank;
      CloseEachDrops(rc, w, bar, n - 1);
      assert w.b.openTrades[..n][..n-1] == w.b.openTrades[..n-1];
      CloseTheFirst(rc, CloseEach(rc, w, bar, w.b.openTrades[..n-1]), bar);
    }
  }

  /** A liquidation leaves a flat broker and an idle strategy with nothing queued. */
  lemma CloseAllFlattens(rc: RunConfig, w: World, bar: Bar)
    ensures var w' := CloseAllTrades(rc, w, bar);
      && Flat(w'.b) && !w'.g.closing && w'.g.queue == [] && w'.g.retired == {}
      && (if w.g.active then w'.g.anchor.None? else w'.g.anchor == w.g.anchor && !w'.g.active)
  {
    var trades := w.b.openTrades;
    CloseEachDrops(rc, CancelEverything(w), bar, |trades|);
    assert trades[..|trades|] == trades;
    hide CloseEach;
  }

  // ---- One call

  /** A call lays an anchor when there was none, or when it starts a session. */
  predicate LaysAnchor(g: Grid, g': Grid) {
    g'.anchor.Some? && (g.anchor.None? || g'.sessions != g.sessions)
  }

  /** What a call leaves: an entry comes only from a strategy in session. */
  predicate Answers(g: Grid, flat: bool, s: Option<Signal>) {
    Rests(g, flat) && (s.Some? && s.value.Entry? ==> !Idle(g) && !g.closing)
  }

  lemma StartBarRests(g: Grid, bar: Bar, flat: bool)
    requires Rests(g, flat)
    ensures var g' := StartBar(g, bar);
      && Rests(g', flat) && g'.queue == g.queue
      && (g'.anchor != g.anchor || g'.sessions != g.sessions ==> flat)
  {
  }

  lemma OpensSession(c: GridConfig, g: Grid)
    ensures var g' := InitSession(c, g);
      g'.anchor.Some? && g'.active == g.active && g'.closing == g.closing && g'.sessions == g.sessions
  {
    InitFrame(c, g);
  }

  lemma StaysInSession(c: GridConfig, g: Grid)
    ensures var g' := Maintain(c, Trim(c, g));
      && g'.anchor == g.anchor && g'.active == g.active && g'.closing == g.closing && g'.sessions == g.sessions
  {
    TrimFrame(c, g);
    MaintainFrame(c, Trim(c, g));
  }

  lemma PopRests(g: Grid, flat: bool)
    requires g.anchor.Some? && g.active && !g.closing
    ensures var (g', s) := PopSignal(g);
      Answers(g', flat, s) && g'.sessions == g.sessions && g'.anchor == g.anchor
  {
  }

  lemma ExitIsAnchored(c: GridConfig, g: Grid)
    ensures SessionExit(c, g).Some? ==> g.anchor.Some?
  {
  }

  lemma DecideRests(c: GridConfig, g: Grid, flat: bool)
    requires Rests(g, flat) && g.queue == [] && !g.closing
    ensures var (g', s) := Decide(c, g);
      Answers(g', flat, s) && g'.sessions == g.sessions && (g'.anchor == g.anchor || flat)
  {
    hide InitSession, Trim, Maintain, DailyTripped, SessionExit, PopSignal;
    ExitIsAnchored(c, g);
    if g.active && !DailyTripped(c, g) && SessionExit(c, g).None? {
      hide Answers;
      if g.anchor.None? {
        OpensSession(c, g);
        PopRests(InitSession(c, g), flat);
      } else {
        StaysInSession(c, g);
        PopRests(Maintain(c, Trim(c, g)), flat);
      }
    }
  }

  lemma GenerateRests(c: GridConfig, g: Grid, bars: seq<Bar>, flat: bool)
    requires Rests(g, flat)
    ensures var (g', s) := Generate(c, g, bars); Answers(g', flat, s) && (LaysAnchor(g, g') ==> flat)
  {
    if bars != [] {
      var g1 := StartBar(g, bars[|bars|-1]);
      StartBarRests(g, bars[|bars|-1], flat);
      if g1.queue == [] && !g1.closing {
        DecideRests(c, g1, flat);
      }
      hide Decide, StartBar;
    }
  }

  lemma SlideMarkets(c: GridConfig, g: Grid)
    requires g.anchor.Some? && g.queue == []
    ensures var g' := Maintain(c, Trim(c, g)); MarketsAtAnchor(g', g'.queue)
  {
    TrimFrame(c, g);
    hide Trim;
    MaintainSettles(c, Trim(c, g));
  }

  lemma PopMarkets(g: Grid)
    requires MarketsAtAnchor(g, g.queue)
    ensures var (g', s) := PopSignal(g); MarketsAtAnchor(g', Waiting(s) + g'.queue)
  {
    if g.queue != [] {
      assert [g.queue[0]] + g.queue[1..] == g.queue;
    }
  }

  lemma DecideMarkets(c: GridConfig, g: Grid)
    requires g.queue == []
    ensures var (g', s) := Decide(c, g); MarketsAtAnchor(g', Waiting(s) + g'.queue)
  {
    hide InitSession, Trim, Maintain, PopSignal, DailyTripped, SessionExit, MarketsAtAnchor;
    if g.active && !DailyTripped(c, g) && SessionExit(c, g).None? {
      if g.anchor.None? {
        InitMarkets(c, g);
        PopMarkets(InitSession(c, g));
      } else {
        SlideMarkets(c, g);
        PopMarkets(Maintain(c, Trim(c, g)));
      }
    } else {
      NoMarkets(Decide(c, g).0, Decide(c, g).1);
    }
  }

  lemma NoMarkets(g: Grid, s: Option<Signal>)
    requires g.queue == [] && (s.Some? ==> s.value.CloseAll?)
    ensures MarketsAtAnchor(g, Waiting(s) + g.queue)
  {
  }

  lemma GenerateMarkets(c: GridConfig, g: Grid, bars: seq<Bar>)
    requires MarketsAtAnchor(g, g.queue)
    ensures var (g', s) := Generate(c, g, bars); MarketsAtAnchor(g', Waiting(s) + g'.queue)
  {
    if bars == [] {
      assert Waiting(None) + g.queue == g.queue;
    } else {
      var g1 := StartBar(g, bars[|bars|-1]);
      assert MarketsAtAnchor(g1, g1.queue);
      if g1.queue != [] {
        PopMarkets(g1);
      } else if g1.closing {
        NoMarkets(g1, Some(CloseAll(g1.reason)));
      } else {
        DecideMarkets(c, g1);
      }
      hide Decide, StartBar, PopSignal, MarketsAtAnchor;
    }
  }

  /** The order that holds with a signal in hand. */
  ghost predicate InHand(w: World, s: Option<Signal>) {
    Answers(w.g, Flat(w.b), s) && Purged(w.g) && MarketsAtAnchor(w.g, Waiting(s) + w.g.queue)
  }

  lemma AskKeepsOrder(rc: RunConfig, w: World, bars: seq<Bar>)
    requires Orderly(w)
    ensures var (w', s) := Ask(rc, w, bars);
      && InHand(w', s) && w'.b == w.b && (LaysAnchor(w.g, w'.g) ==> Flat(w.b))
      && (s.Some? && s.value.Entry? ==> s.value.key.level !in w'.g.retired)
  {
    hide Generate, Rests, Purged, MarketsAtAnchor, Answers, LaysAnchor;
    GenerateRests(rc.grid, w.g, bars, Flat(w.b));
    GeneratePurged(rc.grid, w.g, bars);
    GenerateMarkets(rc.grid, w.g, bars);
  }

  /** A signal that is dropped leaves order behind. */
  lemma DropKeepsOrder(w: World, s: Option<Signal>)
    requires InHand(w, s)
    ensures Orderly(w)
  {
    if s.Some? {
      RestOfMarkets(w.g, s.value, w.g.queue);
    } else {
      assert Waiting(s) + w.g.queue == w.g.queue;
    }
    hide Rests, Purged;
  }

  // ---- One signal, one drain, one step

  lemma ProcessKeepsOrder(rc: RunConfig, w: World, bar: Bar, s: Signal)
    requires InHand(w, Some(s))
    ensures Orderly(ProcessSignal(rc, w, bar, s))
  {
    hide CloseAllTrades, FillMarket, Stamp;
    if s.CloseAll? {
      CloseAllFlattens(rc, w, bar);
    } else {
      DropKeepsOrder(w, Some(s));
    }
  }

  lemma {:induction false} DrainKeepsOrder(rc: RunConfig, w: World, bars: seq<Bar>, s: Option<Signal>, count: nat)
    requires bars != [] && InHand(w, s)
    ensures Orderly(DrainFrom(rc, w, bars, s, count).w)
    decreases MAX_SIGNAL_DRAIN - count
  {
    hide Ask, ProcessSignal, DrainFrom, InHand, Orderly;
    DrainUnfolds(rc, w, bars, s, count);
    if s.Some? && count < MAX_SIGNAL_DRAIN {
      ProcessKeepsOrder(rc, w, bars[|bars|-1], s.value);
      var w1 := ProcessSignal(rc, w, bars[|bars|-1], s.value);
      AskKeepsOrder(rc, w1, bars);
      DrainKeepsOrder(rc, Ask(rc, w1, bars).0, bars, Ask(rc, w1, bars).1, count + 1);
    } else {
      DropKeepsOrder(w, s);
    }
  }

  lemma StepKeepsOrder(rc: RunConfig, w: World, bars: seq<Bar>)
    requires bars != [] && Orderly(w)
    ensures Orderly(GridStep(rc, w, bars))
  {
    hide BeforeDrain, Ask, DrainFrom, HandleLevelsToClose, InHand, Orderly;
    var bar := bars[|bars|-1];
    BarKeepsOrder(rc, w, bar);
    var (w1, s) := Ask(rc, BeforeDrain(rc, w, bar), bars);
    AskKeepsOrder(rc, BeforeDrain(rc, w, bar), bars);
    DrainKeepsOrder(rc, w1, bars, s, 0);
    var w2 := Drain(rc, BeforeDrain(rc, w, bar), bars).w;
    StepEndKeepsCourse(rc, w2, bar);
    CourseKeepsOrder(w2, HandleLevelsToClose(rc, w2, bar));
  }

  lemma {:induction false} RunIsOrderly(rc: RunConfig, capital: real, bars: seq<Bar>, count: nat, n: nat)
    requires 1 <= count && count + n <= |bars|
    ensures Orderly(Replay(rc, capital, bars, count, n))
  {
    if n > 0 {
      hide GridStep, Orderly;
      RunIsOrderly(rc, capital, bars, count, n - 1);
      StepKeepsOrder(rc, Replay(rc, capital, bars, count, n - 1), Visible(bars, count + n - 1, count));
    }
  }

  /**
   Main result: after every step of every run, without an anchor, or paused with no close-all under way, the broker is
   flat, so no session opens over live trades.
   */
  lemma FlatSessions(rc: RunConfig, capital: real, bars: seq<Bar>, count: nat, n: nat)
    requires 1 <= count && count + n <= |bars|
    ensures var w := Replay(rc, capital, bars, count, n);
      w.g.anchor.None? || (!w.g.active && !w.g.closing) ==> w.b.openTrades == [] && w.b.pending == []
  {
    RunIsOrderly(rc, capital, bars, count, n);
    hide Replay, Purged;
  }
}
