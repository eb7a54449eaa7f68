/** The drain of one bar comes to rest, and how many signals that takes at most. */
module Quiescence {
  import opened Market
  import opened Ladder
  import opened Rounding
  import opened GridModel
  import opened RunnerModel
  import opened Agreement
  import opened DrainAgreement

  // ---- A settled grid

  /** Every side of the window is placed, live, retired, or cannot be placed at this price. */
  ghost predicate Staged(c: GridConfig, g: Grid, levels: seq<int>) {
    forall i, side :: 0 <= i < |levels| && levels[i] !in g.retired ==>
      Key(levels[i], side) in g.placed || Key(levels[i], side) in g.filled || Unplaceable(c, g, Key(levels[i], side))
  }

  /** Every active level beyond a cap is retired. */
  ghost predicate WithinCaps(c: GridConfig, g: Grid)
    requires g.anchor.Some?
  {
    && (forall i :: 0 <= i < |Drop(ActiveAbove(g), CapAbove(c, g))| ==>
          Drop(ActiveAbove(g), CapAbove(c, g))[i] in g.retired)
    && (forall i :: 0 <= i < |Drop(ActiveBelow(g), CapBelow(c, g))| ==>
          Drop(ActiveBelow(g), CapBelow(c, g))[i] in g.retired)
  }

  /** Asking again at the same bar can only drain what is queued. */
  ghost predicate Settled(c: GridConfig, g: Grid) {
    && !g.closing
    && (g.active ==>
          && g.anchor.Some? && !DailyTripped(c, g) && SessionExit(c, g).None?
          && WithinCaps(c, g) && Staged(c, g, Window(c, g)) && Stale(g, Window(c, g)) == {})
  }

  lemma {:induction false} RetireAllIdle(g: Grid, levels: seq<int>)
    requires forall i :: 0 <= i < |levels| ==> levels[i] in g.retired
    ensures RetireAll(g, levels) == g
  {
    if levels != [] {
      RetireAllIdle(g, levels[..|levels|-1]);
    }
  }

  lemma {:induction false} QueueLevelsIdle(c: GridConfig, g: Grid, levels: seq<int>)
    requires Staged(c, g, levels)
    ensures QueueLevels(c, g, levels) == g
  {
    if levels != [] {
      var init, level := levels[..|levels|-1], levels[|levels|-1];
      assert forall i :: 0 <= i < |init| ==> init[i] == levels[i];
      QueueLevelsIdle(c, g, init);
      assert levels[|levels|-1] == level;
      QueueLevelIdle(c, g, level);
    }
  }

  lemma QueueLevelIdle(c: GridConfig, g: Grid, level: int)
    requires level !in g.retired ==> forall side ::
      Key(level, side) in g.placed || Key(level, side) in g.filled || Unplaceable(c, g, Key(level, side))
    ensures QueueLevel(c, g, level) == g
  {
  }

  /** A settled grid with an empty queue has nothing more to say. */
  lemma SettledIsSilent(c: GridConfig, g: Grid)
    requires Settled(c, g) && g.queue == []
    ensures Decide(c, g) == (g, None)
  {
    if g.active {
      RetireAllIdle(g, Drop(ActiveAbove(g), CapAbove(c, g)));
      RetireAllIdle(g, Drop(ActiveBelow(g), CapBelow(c, g)));
      assert Trim(c, g) == g;
      assert Retract(g, Window(c, g)) == g;
      QueueLevelsIdle(c, g, Window(c, g));
      assert Maintain(c, g) == g;
    }
  }

  // ---- Trim and maintain settle the grid

  lemma {:induction false} RetireAllRetires(g: Grid, levels: seq<int>)
    ensures var g' := RetireAll(g, levels);
      && g.retired <= g'.retired
      && (forall i :: 0 <= i < |levels| ==> levels[i] in g'.retired)
      && g' == g.(retired := g'.retired, pendingClose := g'.pendingClose)
  {
    if levels != [] {
      RetireAllRetires(g, levels[..|levels|-1]);
      assert forall i :: 0 <= i < |levels| - 1 ==> levels[i] == levels[..|levels|-1][i];
    }
  }

  lemma TrimRetires(c: GridConfig, g: Grid)
    requires g.anchor.Some?
    ensures Trim(c, g) == g.(retired := Trim(c, g).retired, pendingClose := Trim(c, g).pendingClose)
    ensures WithinCaps(c, Trim(c, g))
  {
    var above, below := Drop(ActiveAbove(g), CapAbove(c, g)), Drop(ActiveBelow(g), CapBelow(c, g));
    RetireAllRetires(g, above);
    RetireAllRetires(RetireAll(g, above), below);
    var g' := Trim(c, g);
    assert ActiveAbove(g') == ActiveAbove(g) && ActiveBelow(g') == ActiveBelow(g);
    assert CapAbove(c, g') == CapAbove(c, g) && CapBelow(c, g') == CapBelow(c, g);
  }

  /** Queueing levels stages them, adds sides only there, and at most two signals a level. */
  ghost predicate Queueing(c: GridConfig, g: Grid, g': Grid, levels: seq<int>) {
    && g' == g.(placed := g'.placed, queue := g'.queue)
    && Staged(c, g', levels)
    && g.placed <= g'.placed
    && (forall k :: k in g'.placed ==> k in g.placed || k.level in levels)
    && |g.queue| <= |g'.queue| <= |g.queue| + 2 * |levels|
    && g.queue <= g'.queue
    && (forall i :: |g.queue| <= i < |g'.queue| ==> g'.queue[i].Entry? && g'.queue[i].orderType != OrderType.Market)
  }

  lemma QueueMissingQueues(c: GridConfig, g: Grid, k: Key)
    ensures var g' := QueueMissing(c, g, k);
      && g' == g.(placed := g'.placed, queue := g'.queue)
      && (k in g'.placed || k in g'.filled || Unplaceable(c, g', k))
      && g.placed <= g'.placed <= g.placed + {k}
      && (g'.queue == g.queue
          || (|g'.queue| == |g.queue| + 1 && g.queue <= g'.queue
              && g'.queue[|g.queue|].Entry? && g'.queue[|g.queue|].orderType != OrderType.Market))
  {
  }

  lemma QueueLevelQueues(c: GridConfig, g: Grid, level: int)
    ensures Queueing(c, g, QueueLevel(c, g, level), [level])
  {
    if level !in g.retired {
      QueueMissingQueues(c, g, Key(level, Long));
      var g1 := QueueMissing(c, g, Key(level, Long));
      QueueMissingQueues(c, g1, Key(level, Short));
      var g2 := QueueMissing(c, g1, Key(level, Short));
      assert Unplaceable(c, g1, Key(level, Long)) == Unplaceable(c, g2, Key(level, Long));
      forall side ensures Key(level, side) in g2.placed || Key(level, side) in g2.filled
        || Unplaceable(c, g2, Key(level, side)) {
        if side == Long {
        } else {
        }
      }
    }
  }

  lemma QueueingJoins(c: GridConfig, g: Grid, g1: Grid, g2: Grid, init: seq<int>, level: int)
    requires Queueing(c, g, g1, init) && Queueing(c, g1, g2, [level])
    ensures Queueing(c, g, g2, init + [level])
  {
  }

  lemma {:induction false} QueueLevelsQueue(c: GridConfig, g: Grid, levels: seq<int>)
    ensures Queueing(c, g, QueueLevels(c, g, levels), levels)
  {
    if levels != [] {
      var init, level := levels[..|levels|-1], levels[|levels|-1];
      QueueLevelsQueue(c, g, init);
      QueueLevelQueues(c, QueueLevels(c, g, init), level);
      QueueingJoins(c, g, QueueLevels(c, g, init), QueueLevels(c, g, levels), init, level);
      assert levels == init + [level];
    }
  }

  lemma WindowSize(c: GridConfig, g: Grid)
    ensures |Window(c, g)| <= c.ahead + c.behind
  {
    SortUniqueIsSorted(Take(LevelsAbove(g.levels, g.price), CapAbove(c, g))
                       + Take(LevelsBelow(g.levels, g.price), CapBelow(c, g)));
  }

  /** Maintaining leaves nothing stale, everything staged, and few new signals. */
  lemma MaintainSettles(c: GridConfig, g: Grid)
    requires g.anchor.Some?
    ensures var g' := Maintain(c, g);
      && Staged(c, g', Window(c, g')) && Stale(g', Window(c, g')) == {}
      && g' == g.(placed := g'.placed, queue := g'.queue, pendingClose := g'.pendingClose)
      && |g'.queue| <= |g.queue| + 2 * (c.ahead + c.behind) && g.queue <= g'.queue
      && (forall i :: |g.queue| <= i < |g'.queue| ==> g'.queue[i].Entry? && g'.queue[i].orderType != OrderType.Market)
  {
    var window := Window(c, g);
    var g1 := Retract(g, window);
    QueueLevelsQueue(c, g1, window);
    WindowSize(c, g);
    var g' := Maintain(c, g);
    assert Window(c, g') == window;
    forall k | k in g'.placed ensures k !in Stale(g', window) {
      if k in g1.placed {
        assert k !in Stale(g, window);
      }
    }
  }

  // ---- The two ways a cycle can queue

  /** Only the anchor pair is entered at market. */
  ghost predicate MarketsAtAnchor(g: Grid, sigs: seq<Signal>) {
    forall i :: 0 <= i < |sigs| && sigs[i].Entry? && sigs[i].orderType == OrderType.Market ==>
      g.anchor.Some? && sigs[i].key.level == Cents(g.anchor.value)
  }

  lemma SlideIsWithinCaps(c: GridConfig, g: Grid)
    requires g.anchor.Some?
    ensures var g' := Maintain(c, Trim(c, g)); g'.anchor.Some? && WithinCaps(c, g')
  {
    TrimRetires(c, g);
    var g1 := Trim(c, g);
    MaintainSettles(c, g1);
    var g' := Maintain(c, g1);
    assert ActiveAbove(g') == ActiveAbove(g1) && ActiveBelow(g') == ActiveBelow(g1);
    assert CapAbove(c, g') == CapAbove(c, g1) && CapBelow(c, g') == CapBelow(c, g1);
  }

  lemma SlideSettles(c: GridConfig, g: Grid)
    requires g.active && !g.closing && g.queue == [] && g.anchor.Some?
    requires !DailyTripped(c, g) && SessionExit(c, g).None?
    ensures var g' := Maintain(c, Trim(c, g));
      Settled(c, g') && |g'.queue| <= 2 * (c.ahead + c.behind) && MarketsAtAnchor(g', g'.queue)
  {
    SlideIsWithinCaps(c, g);
    TrimRetires(c, g);
    MaintainSettles(c, Trim(c, g));
    hide WithinCaps;
  }

  lemma {:induction false} NoneActive(order: seq<int>)
    ensures ActiveAmong(order, {}) == []
  {
    if order != [] {
      NoneActive(order[..|order|-1]);
      assert KeysAt({}, order[|order|-1]) == {};
    }
  }

  lemma AnchorSideQueues(c: GridConfig, g: Grid, k: Key)
    requires g.anchor.Some? && k.level == Cents(g.anchor.value) && MarketsAtAnchor(g, g.queue)
    ensures var g' := QueueSide(c, g, k, true);
      && g' == g.(placed := g'.placed, queue := g'.queue)
      && |g'.queue| <= |g.queue| + 1 && MarketsAtAnchor(g', g'.queue)
  {
  }

  lemma AnchorPairQueues(c: GridConfig, g: Grid)
    requires g.anchor.Some? && g.queue == []
    ensures var g' := PlaceAnchorPair(c, g);
      && g' == g.(placed := g'.placed, queue := g'.queue)
      && |g'.queue| <= 2 && MarketsAtAnchor(g', g'.queue)
  {
    var level := Cents(g.anchor.value);
    AnchorSideQueues(c, g, Key(level, Long));
    AnchorSideQueues(c, QueueSide(c, g, Key(level, Long), true), Key(level, Short));
  }

  lemma InitMarkets(c: GridConfig, g: Grid)
    requires g.queue == []
    ensures var g' := InitSession(c, g);
      |g'.queue| <= 2 + 2 * (c.ahead + c.behind) && MarketsAtAnchor(g', g'.queue)
  {
    var g0 := g.(anchor := Some(g.price), levels := BuildLadder(c.anchorGap, c.spacing, g.price));
    AnchorPairQueues(c, g0);
    var g1 := PlaceAnchorPair(c, g0);
    MaintainSettles(c, g1);
    var g' := InitSession(c, g);
    forall i | 0 <= i < |g'.queue| && g'.queue[i].Entry? && g'.queue[i].orderType == OrderType.Market
      ensures g'.queue[i].key.level == Cents(g.price)
    {
      assert i < |g1.queue| && g'.queue[i] == g1.queue[i];
    }
  }

  lemma InitIsWithinCaps(c: GridConfig, g: Grid)
    requires g.filled == {}
    ensures var g' := InitSession(c, g); g'.anchor.Some? && WithinCaps(c, g')
  {
    InitFrame(c, g);
    hide InitSession;
    var g' := InitSession(c, g);
    NoneActive(g'.fillOrder);
    assert ActiveAbove(g') == [] && ActiveBelow(g') == [];
  }

  lemma InitSettles(c: GridConfig, g: Grid)
    requires g.active && !g.closing && g.queue == [] && g.anchor.None? && g.filled == {}
    requires !DailyTripped(c, g) && g.sessionRealized + g.sessionUnrealized == 0.0
    requires c.profitTarget > 0.0 && c.lossLimit > 0.0
    ensures var g' := InitSession(c, g);
      Settled(c, g') && |g'.queue| <= 2 + 2 * (c.ahead + c.behind) && MarketsAtAnchor(g', g'.queue)
  {
    InitMarkets(c, g);
    var g0 := g.(anchor := Some(g.price), levels := BuildLadder(c.anchorGap, c.spacing, g.price));
    AnchorPairQueues(c, g0);
    MaintainSettles(c, PlaceAnchorPair(c, g0));
    InitIsWithinCaps(c, g);
    hide WithinCaps;
  }

  // ---- Settled grids stay settled while the queue drains

  /** Adding a level, or not, that is not beyond the bound. */
  lemma AppendBeside(levels: seq<int>, level: int, bound: int)
    ensures Above(levels + [level], bound) == if level > bound then Above(levels, bound) + [level]
      else Above(levels, bound)
    ensures Below(levels + [level], bound) == if level < bound then Below(levels, bound) + [level]
      else Below(levels, bound)
  {
    assert (levels + [level])[..|levels|] == levels;
  }

  lemma {:induction false} FillAtLeavesAbove(order: seq<int>, filled: set<Key>, k: Key)
    ensures Above(ActiveAmong(order, filled + {k}), k.level) == Above(ActiveAmong(order, filled), k.level)
    ensures Below(ActiveAmong(order, filled + {k}), k.level) == Below(ActiveAmong(order, filled), k.level)
  {
    if order != [] {
      var init, level := order[..|order|-1], order[|order|-1];
      FillAtLeavesAbove(init, filled, k);
      if level != k.level {
        assert KeysAt(filled + {k}, level) == KeysAt(filled, level);
      }
      hide Above, Below, KeysAt;
      AppendBeside(ActiveAmong(init, filled), level, k.level);
      AppendBeside(ActiveAmong(init, filled + {k}), level, k.level);
    }
  }

  lemma AppendAtLeavesAbove(order: seq<int>, filled: set<Key>, level: int)
    ensures Above(ActiveAmong(order + [level], filled), level) == Above(ActiveAmong(order, filled), level)
    ensures Below(ActiveAmong(order + [level], filled), level) == Below(ActiveAmong(order, filled), level)
  {
  }

  lemma AnchorFillKeepsActive(g: Grid, k: Key)
    requires g.anchor.Some? && k.level == Cents(g.anchor.value)
    ensures ActiveAbove(ReportFill(g, k)) == ActiveAbove(g)
    ensures ActiveBelow(ReportFill(g, k)) == ActiveBelow(g)
  {
    FillAtLeavesAbove(g.fillOrder, g.filled, k);
    AppendAtLeavesAbove(g.fillOrder, g.filled + {k}, k.level);
  }

  lemma SameActiveSameCaps(c: GridConfig, g: Grid, g': Grid)
    requires g.anchor.Some? && g'.anchor == g.anchor && g'.price == g.price && g.retired <= g'.retired
    requires ActiveAbove(g') == ActiveAbove(g) && ActiveBelow(g') == ActiveBelow(g)
    ensures WithinCaps(c, g) ==> WithinCaps(c, g')
  {
    assert CapAbove(c, g') == CapAbove(c, g) && CapBelow(c, g') == CapBelow(c, g);
  }

  /** Filling an anchor side changes neither the active levels beside the anchor nor what is staged. */
  lemma AnchorFillKeepsSettled(c: GridConfig, g: Grid, k: Key)
    requires Settled(c, g) && g.active && k in g.placed && k.level == Cents(g.anchor.value)
    ensures Settled(c, ReportFill(g, k))
  {
    hide ActiveAbove, ActiveBelow, WithinCaps, Staged, Stale, Window;
    AnchorFillKeepsActive(g, k);
    SameActiveSameCaps(c, g, ReportFill(g, k));
    AnchorFillKeepsStaged(c, g, k);
  }

  lemma AnchorFillKeepsStaged(c: GridConfig, g: Grid, k: Key)
    requires g.anchor.Some? && Staged(c, g, Window(c, g)) && Stale(g, Window(c, g)) == {}
    requires k in g.placed && k.level == Cents(g.anchor.value)
    ensures var g' := ReportFill(g, k); Staged(c, g', Window(c, g')) && Stale(g', Window(c, g')) == {}
  {
  }

  // ---- The drain

  function Waiting(s: Option<Signal>): seq<Signal> {
    if s.Some? then [s.value] else []
  }

  /** A settled grid with a signal in hand that is not a close-all. */
  ghost predicate Draining(c: GridConfig, w: World, s: Option<Signal>, bar: Bar, paidIn: real) {
    && Asked(c, w, s, paidIn) && Settled(c, w.g)
    && w.g.price == bar.close && w.g.date == bar.date
    && MarketsAtAnchor(w.g, Waiting(s) + w.g.queue)
  }

  /** What processing one waiting entry leaves. */
  ghost predicate Processed(c: GridConfig, w: World, w': World, bar: Bar, paidIn: real) {
    && Agreed(c, w', w'.g.queue, paidIn) && Settled(c, w'.g)
    && w'.g.price == bar.close && w'.g.date == bar.date
    && w'.g.queue == w.g.queue && MarketsAtAnchor(w'.g, w'.g.queue)
  }

  lemma RestOfMarkets(g: Grid, s: Signal, rest: seq<Signal>)
    requires MarketsAtAnchor(g, [s] + rest)
    ensures MarketsAtAnchor(g, rest)
    ensures s.Entry? && s.orderType == OrderType.Market ==> g.anchor.Some? && s.key.level == Cents(g.anchor.value)
  {
    var sigs := [s] + rest;
    assert sigs[0] == s;
    assert forall i :: 0 <= i < |rest| ==> rest[i] == sigs[i + 1];
  }

  lemma SettledMarket(rc: RunConfig, w: World, bar: Bar, s: Signal, paidIn: real)
    requires Draining(rc.grid, w, Some(s), bar, paidIn) && s.Entry? && s.orderType == OrderType.Market
    ensures Processed(rc.grid, w, PlaceAtMarket(rc, w, bar, s), bar, paidIn)
  {
    MarketKeeps(rc, w, bar, s, paidIn);
    RestOfMarkets(w.g, s, w.g.queue);
    QueueBehind(w.g, w.om.Keys, s, w.g.queue);
    AnchorFillKeepsSettled(rc.grid, w.g, s.key);
  }

  lemma SettledResting(rc: RunConfig, w: World, bar: Bar, s: Signal, paidIn: real)
    requires Draining(rc.grid, w, Some(s), bar, paidIn) && s.Entry?
    ensures Processed(rc.grid, w, PlaceResting(w, s), bar, paidIn)
  {
    RestingKeeps(rc.grid, w, s, paidIn);
    RestOfMarkets(w.g, s, w.g.queue);
  }

  lemma SettledProcess(rc: RunConfig, w: World, bar: Bar, s: Signal, paidIn: real)
    requires Draining(rc.grid, w, Some(s), bar, paidIn)
    ensures Processed(rc.grid, w, ProcessSignal(rc, w, bar, s), bar, paidIn)
  {
    if s.orderType == OrderType.Market {
      SettledMarket(rc, w, bar, s, paidIn);
    } else {
      SettledResting(rc, w, bar, s, paidIn);
    }
  }

  lemma SettledAnswers(c: GridConfig, g: Grid)
    requires Settled(c, g)
    ensures !g.closing && (g.queue == [] ==> Decide(c, g) == (g, None))
  {
    if g.queue == [] {
      SettledIsSilent(c, g);
    }
    hide Decide, WithinCaps, Staged, Stale, DailyTripped, SessionExit;
  }

  lemma QuietOrPops(c: GridConfig, g: Grid, bars: seq<Bar>)
    requires bars != [] && !g.closing && (g.queue == [] ==> Decide(c, g) == (g, None))
      && StartBar(g, bars[|bars|-1]) == g
    ensures Generate(c, g, bars) == PopSignal(g)
  {
    hide Decide, StartBar;
  }

  lemma SameBarAgain(g: Grid, bar: Bar)
    requires g.price == bar.close && g.date == bar.date
    ensures StartBar(g, bar) == g
  {
  }

  /** Asking a settled grid takes the next signal and changes nothing else. */
  lemma AskPops(rc: RunConfig, w: World, bars: seq<Bar>)
    requires bars != [] && Settled(rc.grid, w.g)
    requires w.g.price == bars[|bars|-1].close && w.g.date == bars[|bars|-1].date
    ensures var (w', s) := Ask(rc, w, bars);
      w' == w.(g := w.g.(queue := w'.g.queue)) && Waiting(s) + w'.g.queue == w.g.queue
  {
    hide Decide, Settled, Generate, StartBar;
    SettledAnswers(rc.grid, w.g);
    SameBarAgain(w.g, bars[|bars|-1]);
    QuietOrPops(rc.grid, w.g, bars);
  }

  lemma SettledAsk(rc: RunConfig, w: World, bars: seq<Bar>, paidIn: real)
    requires bars != [] && Agreed(rc.grid, w, w.g.queue, paidIn) && Settled(rc.grid, w.g)
    requires w.g.price == bars[|bars|-1].close && w.g.date == bars[|bars|-1].date
    requires MarketsAtAnchor(w.g, w.g.queue)
    ensures var (w', s) := Ask(rc, w, bars);
      && Draining(rc.grid, w', s, bars[|bars|-1], paidIn)
      && |Waiting(s)| + |w'.g.queue| == |w.g.queue|
  {
    hide Ask, Settled, Agreed, Asked, Waiting;
    AskKeeps(rc, w, bars, paidIn);
    AskPops(rc, w, bars);
    var (w', s) := Ask(rc, w, bars);
    assert |Waiting(s) + w'.g.queue| == |Waiting(s)| + |w'.g.queue|;
    SettledWithQueue(rc.grid, w.g, w'.g.queue);
  }

  lemma SettledWithQueue(c: GridConfig, g: Grid, queue: seq<Signal>)
    requires Settled(c, g)
    ensures Settled(c, g.(queue := queue))
  {
    var g' := g.(queue := queue);
    if g.active {
      assert ActiveAbove(g') == ActiveAbove(g) && ActiveBelow(g') == ActiveBelow(g);
      SameActiveSameCaps(c, g, g');
      assert Window(c, g') == Window(c, g);
      assert Stale(g', Window(c, g)) == Stale(g, Window(c, g));
      forall i, side | 0 <= i < |Window(c, g)|
        ensures Unplaceable(c, g', Key(Window(c, g)[i], side)) == Unplaceable(c, g, Key(Window(c, g)[i], side))
      {
      }
    }
  }

  lemma SettledRound(rc: RunConfig, w: World, bars: seq<Bar>, s: Signal, paidIn: real)
    requires bars != [] && Draining(rc.grid, w, Some(s), bars[|bars|-1], paidIn)
    ensures var (w', s') := Ask(rc, ProcessSignal(rc, w, bars[|bars|-1], s), bars);
      && Draining(rc.grid, w', s', bars[|bars|-1], paidIn)
      && |Waiting(s')| + |w'.g.queue| == |w.g.queue|
  {
    SettledProcess(rc, w, bars[|bars|-1], s, paidIn);
    SettledAsk(rc, ProcessSignal(rc, w, bars[|bars|-1], s), bars, paidIn);
  }

  /** A settled grid drains exactly what is waiting, one signal a round. */
  lemma {:induction false} SettledDrain(rc: RunConfig, w: World, bars: seq<Bar>, s: Option<Signal>, count: nat,
                                        paidIn: real)
    requires bars != [] && Draining(rc.grid, w, s, bars[|bars|-1], paidIn)
    requires count + |Waiting(s)| + |w.g.queue| <= MAX_SIGNAL_DRAIN
    ensures !DrainFrom(rc, w, bars, s, count).dropped
    ensures DrainFrom(rc, w, bars, s, count).processed == count + |Waiting(s)| + |w.g.queue|
    ensures Settled(rc.grid, DrainFrom(rc, w, bars, s, count).w.g)
    decreases MAX_SIGNAL_DRAIN - count
  {
    hide Ask, ProcessSignal;
    if s.Some? {
      SettledRound(rc, w, bars, s.value, paidIn);
      var (w2, s2) := Ask(rc, ProcessSignal(rc, w, bars[|bars|-1], s.value), bars);
      SettledDrain(rc, w2, bars, s2, count + 1, paidIn);
    }
  }

  /** A side that is placed without an order at a level that is not retired: its signal was lost. */
  ghost predicate LostAt(w: World, k: Key) {
    k in w.g.placed && k !in w.om && k.level !in w.g.retired
  }

  ghost predicate Lost(w: World) {
    exists k :: LostAt(w, k)
  }

  /**
   A settled grid's drain drops a signal exactly when more than 50 wait, and then its side is believed placed though
   no order rests.
   */
  lemma {:induction false} DrainDropsIff(rc: RunConfig, w: World, bars: seq<Bar>, s: Option<Signal>, count: nat,
                                         paidIn: real)
    requires bars != [] && Draining(rc.grid, w, s, bars[|bars|-1], paidIn) && count <= MAX_SIGNAL_DRAIN
    ensures var d := DrainFrom(rc, w, bars, s, count);
      && (d.dropped <==> count + |Waiting(s)| + |w.g.queue| > MAX_SIGNAL_DRAIN)
      && (d.dropped ==> Lost(d.w))
      && (d.dropped ==> |d.w.g.queue| == count + |w.g.queue| - MAX_SIGNAL_DRAIN)
    decreases MAX_SIGNAL_DRAIN - count
  {
    hide Ask, ProcessSignal;
    if s.Some? && count < MAX_SIGNAL_DRAIN {
      SettledRound(rc, w, bars, s.value, paidIn);
      var (w2, s2) := Ask(rc, ProcessSignal(rc, w, bars[|bars|-1], s.value), bars);
      DrainDropsIff(rc, w2, bars, s2, count + 1, paidIn);
    } else if s.Some? {
      QueueBehind(w.g, w.om.Keys, s.value, w.g.queue);
      assert LostAt(w, s.value.key);
    }
  }

  // ---- The first call of a bar, and the call after a close-all

  ghost predicate Positive(c: GridConfig) {
    c.profitTarget > 0.0 && c.lossLimit > 0.0
  }

  /** Positive exits, and few enough levels for one drain: 3 + 2 * 23 signals stay below the cap of 50. */
  ghost predicate Sane(c: GridConfig) {
    Positive(c) && c.ahead + c.behind <= 23
  }

  /** At the bar, with nothing queued, nothing being trimmed, and no result without an anchor. */
  ghost predicate AtBar(c: GridConfig, w: World, bar: Bar, paidIn: real) {
    && InStep(c, w, paidIn)
    && w.g.price == bar.close && w.g.date == bar.date
    && (w.g.anchor.None? ==> w.g.sessionUnrealized == 0.0)
  }

  lemma DecideSettles(c: GridConfig, g: Grid, orders: set<Key>)
    requires GridOk(c, g, orders, []) && g.queue == [] && Positive(c)
    requires g.anchor.None? ==> g.sessionUnrealized == 0.0
    ensures var (g', s) := Decide(c, g);
      if s.Some? && s.value.CloseAll? then g.active && g.anchor.Some?
      else Settled(c, g') && MarketsAtAnchor(g', Waiting(s) + g'.queue)
           && |Waiting(s)| + |g'.queue| <= 2 + 2 * (c.ahead + c.behind)
  {
    if g.active && !DailyTripped(c, g) && SessionExit(c, g).None? {
      var g1: Grid;
      if g.anchor.None? {
        InitSettles(c, g);
        g1 := InitSession(c, g);
      } else {
        SlideSettles(c, g);
        g1 := Maintain(c, Trim(c, g));
      }
      PopSettles(c, g1);
      DecideKeeps(c, g, orders);
      assert Decide(c, g) == PopSignal(g1);
    }
  }

  lemma PopSettles(c: GridConfig, g: Grid)
    requires Settled(c, g) && MarketsAtAnchor(g, g.queue)
    ensures var (g', s) := PopSignal(g);
      Settled(c, g') && MarketsAtAnchor(g', Waiting(s) + g'.queue) && |Waiting(s)| + |g'.queue| == |g.queue|
  {
    if g.queue != [] {
      SettledWithQueue(c, g, g.queue[1..]);
      assert [g.queue[0]] + g.queue[1..] == g.queue;
    }
  }

  /** The first answer at a bar is a close-all, or the head of a short queue of a settled grid. */
  lemma AskAtBar(rc: RunConfig, w: World, bars: seq<Bar>, paidIn: real)
    requires bars != [] && AtBar(rc.grid, w, bars[|bars|-1], paidIn) && Positive(rc.grid)
    ensures var (w', s) := Ask(rc, w, bars);
      if s.Some? && s.value.CloseAll? then w.g.active && w.g.anchor.Some? && Asked(rc.grid, w', s, paidIn)
           && w'.g.price == w.g.price && w'.g.date == w.g.date
      else Draining(rc.grid, w', s, bars[|bars|-1], paidIn)
           && |Waiting(s)| + |w'.g.queue| <= 2 + 2 * (rc.grid.ahead + rc.grid.behind)
  {
    AskKeeps(rc, w, bars, paidIn);
    assert StartBar(w.g, bars[|bars|-1]) == w.g;
    DecideSettles(rc.grid, w.g, w.om.Keys);
  }

  /** After a close-all the next answer is the head of a short queue of a settled grid. */
  lemma CloseAllSettles(rc: RunConfig, w: World, bars: seq<Bar>, s: Signal, paidIn: real)
    requires bars != [] && Asked(rc.grid, w, Some(s), paidIn) && s.CloseAll? && Positive(rc.grid)
    requires w.g.price == bars[|bars|-1].close && w.g.date == bars[|bars|-1].date
    ensures var (w', s') := Ask(rc, ProcessSignal(rc, w, bars[|bars|-1], s), bars);
      && Draining(rc.grid, w', s', bars[|bars|-1], paidIn)
      && |Waiting(s')| + |w'.g.queue| <= 2 + 2 * (rc.grid.ahead + rc.grid.behind)
  {
    CloseAllKeeps(rc, w, bars[|bars|-1], paidIn);
    AskAtBar(rc, CloseAllTrades(rc, w, bars[|bars|-1]), bars, paidIn);
  }

  /** Asking takes in the bar first; taking it in twice is taking it in once. */
  lemma AskStartsBar(rc: RunConfig, w: World, bars: seq<Bar>, paidIn: real)
    requires bars != [] && InStep(rc.grid, w, paidIn)
    requires w.g.anchor.None? ==> w.g.sessionUnrealized == 0.0
    ensures var w1 := w.(g := StartBar(w.g, bars[|bars|-1]));
      AtBar(rc.grid, w1, bars[|bars|-1], paidIn) && Ask(rc, w1, bars) == Ask(rc, w, bars)
  {
    var bar := bars[|bars|-1];
    StartBarKeeps(rc.grid, w.g, w.om.Keys, bar);
    var g1 := StartBar(w.g, bar);
    assert StartBar(g1, bar) == g1;
    assert g1.pendingClose == {};
  }

  /**
   From any step start the drain comes to rest within 3 + 2 * (ahead + behind) signals, so the cap of 50 drops
   nothing.
   */
  lemma DrainQuiesces(rc: RunConfig, w: World, bars: seq<Bar>, paidIn: real)
    requires bars != [] && InStep(rc.grid, w, paidIn) && Sane(rc.grid)
    requires w.g.anchor.None? ==> w.g.sessionUnrealized == 0.0
    ensures !Drain(rc, w, bars).dropped
    ensures Drain(rc, w, bars).processed <= 3 + 2 * (rc.grid.ahead + rc.grid.behind)
    ensures Settled(rc.grid, Drain(rc, w, bars).w.g)
  {
    hide ProcessSignal;
    AskStartsBar(rc, w, bars, paidIn);
    var bar := bars[|bars|-1];
    AskAtBar(rc, w.(g := StartBar(w.g, bar)), bars, paidIn);
    hide Ask;
    var (w1, s) := Ask(rc, w, bars);
    if s.Some? && s.value.CloseAll? {
      CloseAllSettles(rc, w1, bars, s.value, paidIn);
      var (w2, s2) := Ask(rc, ProcessSignal(rc, w1, bar, s.value), bars);
      SettledDrain(rc, w2, bars, s2, 1, paidIn);
      assert DrainFrom(rc, w1, bars, s, 0) == DrainFrom(rc, w2, bars, s2, 1);
    } else {
      SettledDrain(rc, w1, bars, s, 0, paidIn);
    }
  }
}
