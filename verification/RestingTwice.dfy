/**
 A run in which the engine loses track of an order: while the reads of the trades fail, price moves a step up and back,
 and the strategy asks again for a side whose order still rests.
 */
module RestingTwice {
  import opened Market
  import opened Rounding
  import opened Ladder
  import opened LadderShape
  import opened GridModel
  import opened DrainAgreement
  import opened GridTracking
  import opened Quiescence
  import opened RestingOrders
  import opened SlideAsks
  import opened TightGrid
  import opened LiveGridModel
  import opened LiveGrid
  import opened LiveGridRun
  import opened AskedOnce
  import E = EngineModel

  // ---- A settled strategy is asked for all it has queued

  ghost predicate AllEntries(sigs: seq<Signal>) {
    forall i :: 0 <= i < |sigs| ==> sigs[i].Entry?
  }

  /** What is queued is the head and what is left once it is taken. */
  lemma QueueSplits(g: Grid)
    requires AllEntries(g.queue)
    ensures var (g', s) := PopSignal(g);
      && g' == g.(queue := g'.queue) && g'.(queue := []) == g.(queue := []) && AllEntries(g'.queue)
      && (if s.None? then g.queue == [] && g' == g.(queue := [])
          else s.value.Entry? && g.queue == [s.value] + g'.queue && |g'.queue| == |g.queue| - 1)
  {
  }

  /** The answer was the head of the queue of `x`, and the rest is asked for. */
  lemma AsksRest(gc: GridConfig, g: Grid, bars: seq<Bar>, n: nat, x: Grid)
    requires bars != [] && Generate(gc, g, bars) == PopSignal(x)
    requires Settled(gc, x) && x.price == bars[|bars|-1].close && x.date == bars[|bars|-1].date
    requires |x.queue| < n && AllEntries(x.queue)
    ensures Asks(gc, g, bars, n) == (x.(queue := []), x.queue)
    decreases n
  {
    hide Decide, Settled, Generate, StartBar, PopSignal, AllEntries, Asks;
    QueueSplits(x);
    AsksOne(gc, g, bars, n);
    var (x1, s) := PopSignal(x);
    if s.Some? {
      SettledWithQueue(gc, x, x1.queue);
      SettledAnswers(gc, x1);
      SameBarAgain(x1, bars[|bars|-1]);
      QuietOrPops(gc, x1, bars);
      AsksRest(gc, x1, bars, n - 1, x1);
    }
  }

  /** Asking after a decision that queued all of `x`. */
  lemma AsksDecided(gc: GridConfig, g: Grid, bars: seq<Bar>, n: nat, x: Grid)
    requires bars != [] && g.queue == [] && !g.closing
    requires Decide(gc, StartBar(g, bars[|bars|-1])) == PopSignal(x)
    requires Settled(gc, x) && x.price == bars[|bars|-1].close && x.date == bars[|bars|-1].date
    requires |x.queue| < n && AllEntries(x.queue)
    ensures Asks(gc, g, bars, n) == (x.(queue := []), x.queue)
  {
    assert StartBar(g, bars[|bars|-1]).queue == [] && !StartBar(g, bars[|bars|-1]).closing;
    hide Decide, StartBar, Settled;
    assert Generate(gc, g, bars) == PopSignal(x);
    hide Generate;
    AsksRest(gc, g, bars, n, x);
  }

  // ---- A broker that takes every order

  /** Entries, at market only at the anchor, their stops beyond them. */
  ghost predicate Ordinary(sigs: seq<Signal>) {
    forall i :: 0 <= i < |sigs| ==>
      sigs[i].Entry? && Good(sigs[i], None) && (sigs[i].orderType == OrderType.Market ==> sigs[i].key.level == ANCHOR)
  }

  /** The i-th order is accepted under the id `first + i` and does not fill at once. */
  predicate Takes(a: E.SignalAnswers, id: nat) {
    a.approved && a.answer.Accepted? && a.answer.id == id && !a.answer.immediate && id > 0
  }

  /** Nothing was cancelled between the two. */
  ghost predicate NoneCancelled(d: E.Desk, d': E.Desk) {
    (forall e :: e in d.trace ==> !e.CancelOrder? && !e.CancelAll?) ==>
      forall e :: e in d'.trace ==> !e.CancelOrder? && !e.CancelAll?
  }

  /** What handling changes of the strategy: the sides at the anchor. */
  ghost predicate AnchorOnly(g: Grid, g': Grid) {
    && g' == g.(placed := g'.placed, filled := g'.filled, stopped := g'.stopped, fillOrder := g'.fillOrder)
    && g'.placed <= g.placed && (forall k :: k in g.placed && k.level != ANCHOR ==> k in g'.placed)
    && (forall k :: k in g'.filled ==> k in g.filled || k.level == ANCHOR)
  }

  /** The first `n` orders were taken: each id is held by the side that it was given for. */
  ghost predicate Taken(d: E.Desk, d': E.Desk, sigs: seq<Signal>, n: nat, first: nat)
    requires n <= |sigs| && forall i :: 0 <= i < |sigs| ==> sigs[i].Entry?
  {
    && (forall k :: k in d'.orders ==>
          || (k in d.orders && d'.orders[k] == d.orders[k])
          || exists i :: 0 <= i < n && sigs[i].key == k && d'.orders[k] == first + i)
    && (forall k :: k in d'.trades ==>
          || (k in d.trades && d'.trades[k] == d.trades[k])
          || exists i :: 0 <= i < n && IsResting(sigs[i]) == false && d'.trades[k] == first + i)
    && (forall k :: k in d.orders ==> k in d'.orders)
    && (forall i :: 0 <= i < n && IsResting(sigs[i]) ==>
          sigs[i].key in d'.orders && d'.orders[sigs[i].key] >= first)
  }

  /** A resting order is listed and the strategy hears nothing. */
  lemma TakesResting(c: E.EngineConfig, w: Pair, s: Signal, a: E.SignalAnswers, id: nat)
    requires c.maxOpenTrades == 0 && IsResting(s) && Good(s, None) && Takes(a, id)
    ensures var w' := HandleOne(c, w, s, a);
      && w'.g == w.g && w'.e.breaker == w.e.breaker
      && w'.e.desk.orders == w.e.desk.orders[s.key := id] && w'.e.desk.trades == w.e.desk.trades
      && NoneCancelled(w.e.desk, w'.e.desk)
  {
    hide HearNew, E.Capped, Round5;
    var d, d' := w.e.desk, HandleOne(c, w, s, a).e.desk;
    assert d' == E.PlaceResting(c, d, E.Wanted(s, None), a.answer, a.leg);
    HearOnly(w.g, d, d', [d'.trace[|d.trace|]]);
  }

  /** A market order is filled, or turned away by the guard. */
  lemma TakesMarket(c: E.EngineConfig, w: Pair, s: Signal, a: E.SignalAnswers, id: nat)
    requires c.maxOpenTrades == 0 && w.g.queue == [] && s.Entry? && s.orderType == OrderType.Market && Takes(a, id)
    requires s.key.level == ANCHOR
    ensures var w' := HandleOne(c, w, s, a);
      && AnchorOnly(w.g, w'.g) && w'.e.breaker == w.e.breaker && w'.e.desk.orders == w.e.desk.orders
      && (w'.e.desk.trades == w.e.desk.trades || w'.e.desk.trades == w.e.desk.trades[s.key := id])
      && NoneCancelled(w.e.desk, w'.e.desk)
  {
    hide HearNew, E.Capped;
    var d, d' := w.e.desk, HandleOne(c, w, s, a).e.desk;
    if E.StopOnWrongSide(s, a.close) {
      HearOne(w.g, d, d', E.TellRejected(s.key));
    } else {
      HearLast(w.g, d, d', [d'.trace[|d.trace|]], E.TellFilled(s.key, a.answer.price));
    }
  }

  lemma AnchorOnlyJoins(g: Grid, g1: Grid, g2: Grid)
    requires AnchorOnly(g, g1) && AnchorOnly(g1, g2)
    ensures AnchorOnly(g, g2)
  {
  }

  /** What one more order does to the maps. */
  ghost predicate TakesNext(d: E.Desk, d': E.Desk, s: Signal, id: nat)
    requires s.Entry?
  {
    if IsResting(s) then d'.orders == d.orders[s.key := id] && d'.trades == d.trades
    else d'.orders == d.orders && (d'.trades == d.trades || d'.trades == d.trades[s.key := id])
  }

  lemma OneMoreTaken(d: E.Desk, d1: E.Desk, d2: E.Desk, sigs: seq<Signal>, n: nat, first: nat)
    requires n < |sigs| && forall i :: 0 <= i < |sigs| ==> sigs[i].Entry?
    requires Taken(d, d1, sigs, n, first) && TakesNext(d1, d2, sigs[n], first + n)
    ensures Taken(d, d2, sigs, n + 1, first)
  {
    hide IsResting;
    assert forall k :: k in d2.orders ==> k == sigs[n].key || (k in d1.orders && d2.orders[k] == d1.orders[k]);
    forall k | k in d2.trades ensures (k in d.trades && d2.trades[k] == d.trades[k])
      || exists i :: 0 <= i < n + 1 && IsResting(sigs[i]) == false && d2.trades[k] == first + i
    {
      if d2.trades != d1.trades && k == sigs[n].key {
        assert IsResting(sigs[n]) == false && d2.trades[k] == first + n;
      }
    }
  }

  lemma TakesOne(c: E.EngineConfig, w: Pair, s: Signal, a: E.SignalAnswers, id: nat)
    requires c.maxOpenTrades == 0 && w.g.queue == [] && s.Entry? && Good(s, None) && Takes(a, id)
    requires s.orderType == OrderType.Market ==> s.key.level == ANCHOR
    ensures var w' := HandleOne(c, w, s, a);
      && AnchorOnly(w.g, w'.g) && w'.e.breaker == w.e.breaker && TakesNext(w.e.desk, w'.e.desk, s, id)
      && NoneCancelled(w.e.desk, w'.e.desk)
  {
    hide HandleOne;
    if IsResting(s) {
      TakesResting(c, w, s, a, id);
    } else {
      TakesMarket(c, w, s, a, id);
    }
  }

  ghost predicate TakenSoFar(w: Pair, w': Pair, sigs: seq<Signal>, n: nat, first: nat) {
    && n <= |sigs| && (forall i :: 0 <= i < |sigs| ==> sigs[i].Entry?)
    && AnchorOnly(w.g, w'.g) && w'.e.breaker == w.e.breaker && Taken(w.e.desk, w'.e.desk, sigs, n, first)
    && NoneCancelled(w.e.desk, w'.e.desk)
  }

  lemma TakesNextOf(c: E.EngineConfig, w: Pair, w1: Pair, sigs: seq<Signal>, a: E.SignalAnswers, n: nat, first: nat)
    requires c.maxOpenTrades == 0 && w.g.queue == [] && Ordinary(sigs) && n < |sigs| && Takes(a, first + n)
    requires TakenSoFar(w, w1, sigs, n, first)
    ensures TakenSoFar(w, HandleOne(c, w1, sigs[n], a), sigs, n + 1, first)
  {
    hide HandleOne, Taken, TakesNext, Good, Takes;
    TakesOne(c, w1, sigs[n], a, first + n);
    hide AnchorOnly;
    AnchorOnlyJoins(w.g, w1.g, HandleOne(c, w1, sigs[n], a).g);
    OneMoreTaken(w.e.desk, w1.e.desk, HandleOne(c, w1, sigs[n], a).e.desk, sigs, n, first);
  }

  lemma NoneTaken(w: Pair, sigs: seq<Signal>, first: nat)
    requires Ordinary(sigs)
    ensures TakenSoFar(w, w, sigs, 0, first)
  {
    hide Good;
  }

  lemma TakesAt(y: GridCycle, i: nat, first: nat)
    requires y.bars != [] && y.openCount.Some? && forall j: nat :: Takes(y.handling(j), first + j)
    ensures Takes(HandlingAt(y, i), first + i)
  {
    assert Takes(y.handling(i), first + i);
  }

  lemma {:induction false} TakesAll(c: E.EngineConfig, w: Pair, sigs: seq<Signal>, y: GridCycle, n: nat, first: nat)
    requires c.maxOpenTrades == 0 && w.g.queue == [] && Ordinary(sigs) && n <= |sigs|
    requires y.bars != [] && y.openCount.Some? && forall i: nat :: Takes(y.handling(i), first + i)
    ensures TakenSoFar(w, HandleAll(c, w, sigs[..n], y), sigs, n, first)
  {
    hide HandleOne, TakenSoFar, Takes, HandlingAt, Ordinary;
    if n == 0 {
      NoneTaken(w, sigs, first);
    } else {
      TakesAll(c, w, sigs, y, n - 1, first);
      assert sigs[..n][..n-1] == sigs[..n-1];
      TakesAt(y, n - 1, first);
      TakesNextOf(c, w, HandleAll(c, w, sigs[..n-1], y), sigs, HandlingAt(y, n - 1), n - 1, first);
    }
  }

  // ---- A turn whose poll reads nothing

  const BLIND: E.PollAnswers := E.PollAnswers(None, None, k => E.Refused, [], k => E.Failed)

  function Accepting(id: nat): E.SignalAnswers {
    E.SignalAnswers(0.0, 0, true, E.Accepted(id, CLOSE, false), E.Refused,
                    E.Attempt(0.0, 0.0, true, None, i => E.Failed, None, None, 0.0))
  }

  /** The poll fails, and the cycle at the bar has its orders taken under ids from `first` on. */
  function TurnAt(bar: Bar, first: nat): GridTurn {
    GridTurn(BLIND, Some(GridCycle([bar], None, "day", Some(0), (i: nat) => Accepting(first + i))))
  }

  lemma TurnAccepts(bar: Bar, first: nat, i: nat)
    requires first > 0
    ensures Takes(TurnAt(bar, first).cycle.value.handling(i), first + i)
  {
    assert TurnAt(bar, first).cycle.value.handling(i) == Accepting(first + i);
  }

  /** No balances, no cap on the trades. */
  predicate Plain(c: E.EngineConfig) {
    !c.hasSummary && c.maxOpenTrades == 0
  }

  lemma BlindPoll(c: E.EngineConfig, w: Pair)
    ensures var w' := PollPair(c, w, BLIND);
      && w'.g == w.g && w'.e.breaker == w.e.breaker
      && w'.e.desk.orders == w.e.desk.orders && w'.e.desk.trades == w.e.desk.trades
      && NoneCancelled(w.e.desk, w'.e.desk)
  {
  }

  lemma PlainStart(c: E.EngineConfig, gc: GridConfig, w: Pair, y: GridCycle)
    requires Plain(c) && y.bars != []
    ensures var (e1, goes) := E.StartCycle(c, w.e, StartOf(c, gc, w, y));
      && goes && e1.breaker == w.e.breaker && e1.desk.orders == w.e.desk.orders && e1.desk.trades == w.e.desk.trades
      && ToldAt(c, gc, w, y) == UpdateUnrealized(w.g, 0.0) && NoneCancelled(w.e.desk, e1.desk)
  {
    StartCloses(c, gc, w, y);
    hide HearNew, Generate;
    HearOne(w.g, w.e.desk, E.StartCycle(c, w.e, StartOf(c, gc, w, y)).0.desk, E.TellUnrealized(0.0));
  }

  /** What the strategy decides in such a turn. */
  ghost predicate DecidesOn(gc: GridConfig, g: Grid, bar: Bar, x: Grid) {
    var told := UpdateUnrealized(g, 0.0);
    && told.queue == [] && !told.closing && Decide(gc, StartBar(told, bar)) == PopSignal(x)
    && Settled(gc, x) && x.price == bar.close && x.date == bar.date
    && |x.queue| <= E.MAX_DRAIN && Ordinary(x.queue)
  }

  lemma AsksThat(gc: GridConfig, g: Grid, bar: Bar, x: Grid)
    requires DecidesOn(gc, g, bar, x)
    ensures Asks(gc, UpdateUnrealized(g, 0.0), [bar], E.MAX_DRAIN + 1) == (x.(queue := []), x.queue)
    ensures Ordinary(x.queue)
  {
    hide Decide, Settled, Asks, StartBar, Good;
    AsksDecided(gc, UpdateUnrealized(g, 0.0), [bar], E.MAX_DRAIN + 1, x);
  }

  lemma TakenAgain(d: E.Desk, d1: E.Desk, d': E.Desk, sigs: seq<Signal>, first: nat)
    requires d1.orders == d.orders && d1.trades == d.trades
    requires (forall i :: 0 <= i < |sigs| ==> sigs[i].Entry?) && Taken(d1, d', sigs, |sigs|, first)
    ensures Taken(d, d', sigs, |sigs|, first)
  {
  }

  /** All that the decision queued is asked for and taken. */
  lemma CycleTakes(c: E.EngineConfig, gc: GridConfig, w: Pair, bar: Bar, first: nat, x: Grid)
    requires Plain(c) && first > 0 && DecidesOn(gc, w.g, bar, x)
    ensures var y := TurnAt(bar, first).cycle.value;
      var w' := CyclePair(c, gc, w, y);
      && AnchorOnly(x.(queue := []), w'.g) && w'.e.breaker == w.e.breaker
      && (forall i :: 0 <= i < |x.queue| ==> x.queue[i].Entry?)
      && Taken(w.e.desk, w'.e.desk, x.queue, |x.queue|, first) && NoneCancelled(w.e.desk, w'.e.desk)
      && (AsksOnce(c, gc, w, y) ==> !AsksOrdered(x.(queue := []), x.queue, w.e.desk.orders.Keys))
  {
    hide Asks, E.StartCycle, StartOf, ToldAt, HandleAll, Taken, AnchorOnly, DecidesOn, AsksOrdered, Good;
    var y := TurnAt(bar, first).cycle.value;
    PlainStart(c, gc, w, y);
    AsksThat(gc, w.g, bar, x);
    var e1 := E.StartCycle(c, w.e, StartOf(c, gc, w, y)).0;
    var w1 := Pair(e1, x.(queue := []));
    assert CyclePair(c, gc, w, y) == HandleAll(c, w1, x.queue, y) by {
      ToldIs(c, gc, w, y);
    }
    forall i: nat ensures Takes(y.handling(i), first + i) {
      TurnAccepts(bar, first, i);
    }
    TakesAll(c, w1, x.queue, y, |x.queue|, first);
    assert x.queue[..|x.queue|] == x.queue;
    TakenAgain(w.e.desk, e1.desk, HandleAll(c, w1, x.queue, y).e.desk, x.queue, first);
  }

  lemma ToldIs(c: E.EngineConfig, gc: GridConfig, w: Pair, y: GridCycle)
    ensures ToldAt(c, gc, w, y) == HearNew(w.g, w.e.desk, E.StartCycle(c, w.e, StartOf(c, gc, w, y)).0.desk)
  {
  }

  /** The same for the whole turn. */
  lemma TurnTakes(c: E.EngineConfig, gc: GridConfig, w: Pair, bar: Bar, first: nat, x: Grid)
    requires Plain(c) && first > 0 && DecidesOn(gc, w.g, bar, x)
    ensures var w' := TurnPair(c, gc, w, TurnAt(bar, first));
      && AnchorOnly(x.(queue := []), w'.g) && w'.e.breaker == w.e.breaker
      && (forall i :: 0 <= i < |x.queue| ==> x.queue[i].Entry?)
      && Taken(w.e.desk, w'.e.desk, x.queue, |x.queue|, first) && NoneCancelled(w.e.desk, w'.e.desk)
      && (AsksOnce(c, gc, PollPair(c, w, BLIND), TurnAt(bar, first).cycle.value) ==>
            !AsksOrdered(x.(queue := []), x.queue, w.e.desk.orders.Keys))
  {
    hide PollPair, CyclePair, Taken, AnchorOnly, DecidesOn, AsksOrdered, AsksOnce;
    BlindPoll(c, w);
    var w1 := PollPair(c, w, BLIND);
    CycleTakes(c, gc, w1, bar, first, x);
    TakenAgain(w.e.desk, w1.e.desk, CyclePair(c, gc, w1, TurnAt(bar, first).cycle.value).e.desk, x.queue, first);
  }

  // ---- Sliding over a grid that holds nothing beside its anchor

  const STALE: Key := Key(99000, Long)
  const FLAT: Bar := Bar("day", CLOSE, CLOSE, CLOSE, CLOSE)
  const UP: Bar := Bar("day", 1011.0, 1011.0, 1011.0, 1011.0)

  /** A session under way with nothing realized, nothing waiting, nothing retired and only the anchor live. */
  ghost predicate Steady(g: Grid) {
    && g.anchor == Some(CLOSE) && Evenly(g.levels) && g.queue == [] && g.retired == {}
    && g.active && !g.closing && g.date == "day" && g.sessionRealized == 0.0 && g.dailyRealized == 0.0
    && forall k :: k in g.filled ==> k.level == ANCHOR
  }

  lemma {:induction false} ActiveIsHeld(order: seq<int>, filled: set<Key>)
    requires forall k :: k in filled ==> k.level == ANCHOR
    ensures forall x :: x in ActiveAmong(order, filled) ==> x == ANCHOR
  {
    if order != [] {
      ActiveIsHeld(order[..|order|-1], filled);
    }
  }

  lemma NothingToTrim(c: GridConfig, g: Grid)
    requires Steady(g)
    ensures Trim(c, g) == g
  {
    AnchorCents();
    hide Cents, Evenly;
    ActiveIsHeld(g.fillOrder, g.filled);
    TrimSpareAnchor(g);
    var above, below := Above(ActiveLevels(g), ANCHOR), Below(ActiveLevels(g), ANCHOR);
    AboveIsAbove(ActiveLevels(g), ANCHOR);
    BelowIsBelow(ActiveLevels(g), ANCHOR);
    NearestSame(above, g.price);
    NearestSame(below, g.price);
    NoneIsEmpty(ActiveAbove(g));
    NoneIsEmpty(ActiveBelow(g));
  }

  lemma NoneIsEmpty(xs: seq<int>)
    requires forall x :: x !in xs
    ensures xs == []
  {
    if xs != [] {
      var _ := HasElement(xs);
    }
  }

  /** The grid as the bar finds it. */
  function AtBarOf(g: Grid, bar: Bar): Grid {
    g.(price := bar.close, sessionUnrealized := 0.0)
  }

  lemma SlideIsOrdinary(c: GridConfig, g: Grid)
    requires c == Tight(1, 1) && Steady(g)
    ensures Ordinary(Maintain(c, g).queue)
  {
    assert Fit(g, None);
    MaintainFits(c, g, None);
    MaintainSettles(c, g);
    hide Maintain, Good, Evenly;
  }

  lemma SteadyDecides(g: Grid, bar: Bar)
    requires Steady(g) && bar.date == "day"
    ensures var c := Tight(1, 1); DecidesOn(c, g, bar, Maintain(c, AtBarOf(g, bar)))
  {
    var c, g1 := Tight(1, 1), AtBarOf(g, bar);
    assert StartBar(UpdateUnrealized(g, 0.0), bar) == g1;
    assert Steady(g1) && !DailyTripped(c, g1) && SessionExit(c, g1).None?;
    NothingToTrim(c, g1);
    SlideSettles(c, g1);
    SlideIsOrdinary(c, g1);
    MaintainFrame(c, g1);
    hide Maintain, Trim, Settled, Ordinary, Evenly, Tight, StartBar;
  }

  /** What a slide does to that side. */
  lemma SlideFrame(c: GridConfig, g: Grid)
    requires Steady(g)
    ensures var x := Maintain(c, g);
      && Steady(x.(queue := [])) && QueuesPlaced(c, Retract(g, Window(c, g)), x, Window(c, g))
  {
    MaintainFrame(c, g);
    LevelsQueue(c, Retract(g, Window(c, g)), Window(c, g));
    MaintainFilled(c, g);
    hide QueueLevels, Window, Retract, Evenly, QueuesPlaced;
  }

  lemma MaintainFilled(c: GridConfig, g: Grid)
    ensures Maintain(c, g).filled == g.filled
  {
    MaintainFrame(c, g);
    hide Maintain;
  }

  /** With price a step higher the level is outside the window. */
  lemma OutsideAbove(g: Grid)
    requires g.anchor == Some(CLOSE) && g.price == 1011.0 && Evenly(g.levels)
    ensures STALE.level !in Window(Tight(1, 1), g)
  {
    hide LevelsAbove, LevelsBelow, SortUnique;
    var levels := g.levels;
    forall i | 0 <= i <= 2 * RUNGS
      ensures i < 102 ==> Price(levels[i]) < 1011.0
      ensures i >= 102 ==> Price(levels[i]) > 1011.0
    {
      assert levels[i] == ANCHOR + 1000 * (i - RUNGS);
    }
    AboveFrom(levels, 1011.0, 102);
    BelowUpTo(levels, 1011.0, 102);
    var above, below := LevelsAbove(levels, 1011.0), LevelsBelow(levels, 1011.0);
    SortUniqueIsSorted(Take(above, 1) + Take(below, 1));
    assert Take(above, 1) == [102000] && Take(below, 1) == [101000];
  }

  lemma InsideAtAnchor(g: Grid)
    requires Anchoring(g)
    ensures STALE.level in Window(Tight(1, 1), g)
  {
    hide LevelsAbove, LevelsBelow, SortUnique;
    TightSides(g.levels);
    var above, below := LevelsAbove(g.levels, CLOSE), LevelsBelow(g.levels, CLOSE);
    SortUniqueIsSorted(Take(above, 1) + Take(below, 1));
    assert Take(below, 1) == [99000];
    assert (Take(above, 1) + Take(below, 1))[|Take(above, 1)|] == 99000;
  }

  /** Away from the level its placed side is marked to be cancelled, and not asked for. */
  lemma SlidesAway(g: Grid)
    requires Steady(g) && g.price == 1011.0 && STALE in g.placed
    ensures var x := Maintain(Tight(1, 1), g);
      STALE !in x.placed && forall i :: 0 <= i < |x.queue| && x.queue[i].Entry? ==> x.queue[i].key != STALE
  {
    var c := Tight(1, 1);
    AnchorCents();
    OutsideAbove(g);
    SlideFrame(c, g);
    hide Window, Cents, Evenly, Tight, Maintain;
    var r, x := Retract(g, Window(c, g)), Maintain(c, g);
    assert KeysAt(g.filled, STALE.level) == {};
    assert STALE !in r.placed && r.queue == [];
    hide Retract, KeysAt;
    forall i | 0 <= i < |x.queue| && x.queue[i].Entry? ensures x.queue[i].key != STALE {
      assert NewlyQueued(r, x, x.queue[i].key);
    }
  }

  /** At the level a side without a place is placed and asked for. */
  lemma SlidesOver(c: GridConfig, r: Grid, x: Grid)
    requires c == Tight(1, 1) && Anchoring(r) && r.retired == {}
    requires STALE !in r.placed && STALE !in r.filled && x == QueueLevels(c, r, Window(c, r))
    ensures STALE in x.placed && exists i :: 0 <= i < |x.queue| && x.queue[i].Entry? && x.queue[i].key == STALE
  {
    InsideAtAnchor(r);
    LevelsQueue(c, r, Window(c, r));
    QueueLevelsQueue(c, r, Window(c, r));
    hide Window, QueueLevels, Evenly, Unplaceable, Inner;
    StagedSide(c, r, x, Window(c, r), STALE);
    assert Inner(STALE.level) by {
      StaleIsInner();
    }
    InnerIsPlaceable(c, x, STALE);
    assert NewlyQueued(r, x, STALE);
  }

  lemma StaleIsInner()
    ensures Inner(STALE.level)
  {
  }

  // ---- The run

  /** The order of that side rests under the id, and nothing else holds the id. */
  ghost predicate RestsUnder(d: E.Desk, id: nat) {
    && STALE in d.orders && d.orders[STALE] == id
    && (forall k :: k in d.orders && k != STALE ==> d.orders[k] != id)
    && (forall k :: k in d.trades ==> d.trades[k] != id)
  }

  /** No map holds the id. */
  ghost predicate Untracked(d: E.Desk, id: nat) {
    && (forall k :: k in d.orders ==> d.orders[k] != id)
    && (forall k :: k in d.trades ==> d.trades[k] != id)
  }

  lemma TakenOf(d: E.Desk, d': E.Desk, sigs: seq<Signal>, first: nat, k: Key)
    requires (forall i :: 0 <= i < |sigs| ==> sigs[i].Entry?) && Taken(d, d', sigs, |sigs|, first)
    ensures k in d'.orders ==>
      (k in d.orders && d'.orders[k] == d.orders[k])
      || exists i :: 0 <= i < |sigs| && sigs[i].key == k && d'.orders[k] == first + i
    ensures k in d'.trades ==>
      (k in d.trades && d'.trades[k] == d.trades[k])
      || exists i :: 0 <= i < |sigs| && IsResting(sigs[i]) == false && d'.trades[k] == first + i
    ensures k in d.orders ==> k in d'.orders
  {
    hide IsResting;
  }

  /** The first time a resting order of that side is taken, its id is held by nothing else. */
  lemma FirstTaken(d: E.Desk, d': E.Desk, sigs: seq<Signal>, first: nat)
    requires d.orders == map[] && d.trades == map[] && Ordinary(sigs) && Taken(d, d', sigs, |sigs|, first)
    requires exists i :: 0 <= i < |sigs| && sigs[i].key == STALE
    ensures STALE in d'.orders && RestsUnder(d', d'.orders[STALE]) && d'.orders[STALE] < first + |sigs|
  {
    hide Good;
    var i :| 0 <= i < |sigs| && sigs[i].key == STALE;
    assert IsResting(sigs[i]);
    TakenOf(d, d', sigs, first, STALE);
    var j :| 0 <= j < |sigs| && sigs[j].key == STALE && d'.orders[STALE] == first + j;
    assert IsResting(sigs[j]);
    hide Taken, IsResting;
    forall k | k in d'.orders && k != STALE ensures d'.orders[k] != first + j {
      TakenOf(d, d', sigs, first, k);
    }
    forall k | k in d'.trades ensures d'.trades[k] != first + j {
      TakenOf(d, d', sigs, first, k);
    }
  }

  /** Orders taken for other sides under later ids leave it where it is. */
  lemma OthersTaken(d: E.Desk, d': E.Desk, sigs: seq<Signal>, first: nat, id: nat)
    requires (forall i :: 0 <= i < |sigs| ==> sigs[i].Entry?) && Taken(d, d', sigs, |sigs|, first)
    requires RestsUnder(d, id) && id < first && forall i :: 0 <= i < |sigs| ==> sigs[i].key != STALE
    ensures RestsUnder(d', id)
  {
    hide Taken;
    TakenOf(d, d', sigs, first, STALE);
    forall k | k in d'.orders && k != STALE ensures d'.orders[k] != id {
      TakenOf(d, d', sigs, first, k);
    }
    forall k | k in d'.trades ensures d'.trades[k] != id {
      TakenOf(d, d', sigs, first, k);
    }
  }

  /** Another order taken for that side takes its place in the map. */
  lemma TakenOver(d: E.Desk, d': E.Desk, sigs: seq<Signal>, first: nat, id: nat)
    requires Ordinary(sigs) && Taken(d, d', sigs, |sigs|, first)
    requires RestsUnder(d, id) && id < first && exists i :: 0 <= i < |sigs| && sigs[i].key == STALE
    ensures Untracked(d', id)
  {
    hide Good;
    var i :| 0 <= i < |sigs| && sigs[i].key == STALE;
    assert IsResting(sigs[i]);
    assert d'.orders[STALE] >= first;
    hide Taken, IsResting;
    forall k | k in d'.orders ensures d'.orders[k] != id {
      TakenOf(d, d', sigs, first, k);
    }
    forall k | k in d'.trades ensures d'.trades[k] != id {
      TakenOf(d, d', sigs, first, k);
    }
  }

  // ---- The first turn opens a session

  const FIRST: Grid := InitialGrid.(price := CLOSE, date := "day")

  lemma FirstPlaces()
    ensures var c := Tight(1, 1);
      var x := InitSession(c, FIRST);
      && x.anchor == Some(CLOSE) && x.levels == TightLadder() && Evenly(x.levels) && STALE in x.placed
      && (exists i :: 0 <= i < |x.queue| && x.queue[i].Entry? && x.queue[i].key == STALE)
      && x.filled == {} && x.retired == {} && x.pendingClose == {}
  {
    var c := Tight(1, 1);
    InitFrame(c, FIRST);
    LadderIsEven();
    AnchorCents();
    hide Window, QueueLevels, Evenly, Cents, TightLadder, Tight, Retract;
    var g0 := FIRST.(anchor := Some(CLOSE), levels := TightLadder());
    NothingTracked(g0);
    PairTracks(c, g0);
    AnchorPairFrame(c, g0);
    var r := PlaceAnchorPair(c, g0);
    PairIsBesideStale(c, g0);
    hide PlaceAnchorPair;
    QueueLevelsFrame(c, r, Window(c, r));
    SlidesOver(c, r, QueueLevels(c, r, Window(c, r)));
  }

  lemma NothingTracked(g: Grid)
    requires g.anchor.Some? && g.active && g.placed == {} && g.filled == {} && g.pendingClose == {} && g.queue == []
    ensures Tracks(g, {})
  {
  }

  lemma PairIsBesideStale(c: GridConfig, g: Grid)
    requires g.anchor == Some(CLOSE) && g.placed == {} && Cents(CLOSE) == ANCHOR
    ensures STALE !in PlaceAnchorPair(c, g).placed
  {
    hide Unplaceable, SideStopLoss, Cents;
  }

  lemma SoundIsOrdinary(x: Grid)
    requires Fit(x, None) && Tracks(x, {}) && MarketsAtAnchor(x, x.queue) && x.anchor == Some(CLOSE)
    ensures Ordinary(x.queue)
  {
    AnchorCents();
    hide Good, Cents, HoldsNothing;
  }

  lemma FirstIsOrdinary()
    ensures Ordinary(InitSession(Tight(1, 1), FIRST).queue)
  {
    var c := Tight(1, 1);
    assert Fit(FIRST, None) && Tracks(FIRST, {});
    hide Fit, Tracks, MarketsAtAnchor, Ordinary;
    InitFits(c, FIRST, None);
    InitMarkets(c, FIRST);
    InitFrame(c, FIRST);
    InitTracks(c, FIRST, {});
    hide InitSession;
    SoundIsOrdinary(InitSession(c, FIRST));
  }

  lemma FirstDecides()
    ensures DecidesOn(Tight(1, 1), InitialGrid, FLAT, InitSession(Tight(1, 1), FIRST))
  {
    var c := Tight(1, 1);
    assert StartBar(UpdateUnrealized(InitialGrid, 0.0), FLAT) == FIRST;
    assert !DailyTripped(c, FIRST);
    InitSettles(c, FIRST);
    InitFrame(c, FIRST);
    FirstIsOrdinary();
    hide InitSession, Settled, Ordinary, StartBar;
  }

  // ---- Three turns

  /** After a turn: an engine that runs and has cancelled nothing, and a steady strategy. */
  ghost predicate Running(w: Pair) {
    && w.e.breaker.running && Steady(w.g)
    && forall e :: e in w.e.desk.trace ==> !e.CancelOrder? && !e.CancelAll?
  }

  lemma SteadyAfter(x: Grid, g': Grid)
    requires Steady(x.(queue := [])) && AnchorOnly(x.(queue := []), g')
    ensures Steady(g') && (STALE in x.placed ==> STALE in g'.placed) && (STALE !in x.placed ==> STALE !in g'.placed)
  {
    hide Evenly;
  }

  lemma StartIsPlain(c: E.EngineConfig)
    requires Plain(c)
    ensures var w := StartPair(c, None, "day");
      && w.g == InitialGrid && w.e.breaker.running && w.e.desk.orders == map[] && w.e.desk.trades == map[]
      && w.e.desk.trace == []
  {
  }

  lemma FirstTurn(c: E.EngineConfig)
    requires Plain(c)
    ensures var w := TurnPair(c, Tight(1, 1), StartPair(c, None, "day"), TurnAt(FLAT, 1));
      && Running(w) && STALE in w.g.placed
      && STALE in w.e.desk.orders && RestsUnder(w.e.desk, w.e.desk.orders[STALE]) && w.e.desk.orders[STALE] <= 100
  {
    hide TurnPair, StartPair, TurnAt, InitSession, DecidesOn, Taken, AnchorOnly, Tight, Steady, RestsUnder, Ordinary,
      OnceAt, AsksOnce, AsksOrdered;
    var w0, x := StartPair(c, None, "day"), InitSession(Tight(1, 1), FIRST);
    StartIsPlain(c);
    FirstDecides();
    FirstPlaces();
    FirstIsSteady();
    FirstIsShort();
    TurnTakes(c, Tight(1, 1), w0, FLAT, 1, x);
    var w := TurnPair(c, Tight(1, 1), w0, TurnAt(FLAT, 1));
    SteadyAfter(x, w.g);
    FirstIsOrdinary();
    FirstTaken(w0.e.desk, w.e.desk, x.queue, 1);
  }

  lemma FirstIsSteady()
    ensures Steady(InitSession(Tight(1, 1), FIRST).(queue := []))
  {
    FirstPlaces();
    InitFrame(Tight(1, 1), FIRST);
    hide InitSession, Evenly;
  }

  lemma FirstIsShort()
    ensures |InitSession(Tight(1, 1), FIRST).queue| <= E.MAX_DRAIN
  {
    FirstDecides();
    hide InitSession, Decide, Settled, Ordinary;
  }

  /** Price moves a step up: the order of the side is to be cancelled, and still rests. */
  lemma SecondTurn(c: E.EngineConfig, w: Pair, id: nat)
    requires Plain(c) && Running(w) && STALE in w.g.placed && RestsUnder(w.e.desk, id) && id <= 100
    ensures var w' := TurnPair(c, Tight(1, 1), w, TurnAt(UP, 101));
      Running(w') && STALE !in w'.g.placed && RestsUnder(w'.e.desk, id)
  {
    hide TurnPair, TurnAt, Maintain, DecidesOn, Taken, AnchorOnly, Tight, Steady, RestsUnder, AsksOnce, AsksOrdered;
    var g := AtBarOf(w.g, UP);
    var x := Maintain(Tight(1, 1), g);
    SteadyDecides(w.g, UP);
    SteadyAtBar(w.g, UP);
    SlideFrame(Tight(1, 1), g);
    SlidesAway(g);
    TurnTakes(c, Tight(1, 1), w, UP, 101, x);
    var w' := TurnPair(c, Tight(1, 1), w, TurnAt(UP, 101));
    SteadyAfter(x, w'.g);
    OthersTaken(w.e.desk, w'.e.desk, x.queue, 101, id);
  }

  lemma SteadyAtBar(g: Grid, bar: Bar)
    requires Steady(g)
    ensures Steady(AtBarOf(g, bar))
  {
  }

  /** Back at the anchor's price the side is asked for again, and the order that is taken replaces the first. */
  lemma ThirdTurn(c: E.EngineConfig, w: Pair, id: nat)
    requires Plain(c) && Running(w) && STALE !in w.g.placed && RestsUnder(w.e.desk, id) && id <= 200
    ensures var w' := TurnPair(c, Tight(1, 1), w, TurnAt(FLAT, 201)); Running(w') && Untracked(w'.e.desk, id)
    ensures !AsksOnce(c, Tight(1, 1), PollPair(c, w, BLIND), TurnAt(FLAT, 201).cycle.value)
  {
    hide TurnPair, TurnAt, Maintain, DecidesOn, Taken, AnchorOnly, Tight, Steady, AsksOnce, Untracked, Ordinary;
    var g := AtBarOf(w.g, FLAT);
    var x := Maintain(Tight(1, 1), g);
    SteadyDecides(w.g, FLAT);
    SteadyAtBar(w.g, FLAT);
    SlideFrame(Tight(1, 1), g);
    SlidesBack(g);
    SlideIsOrdinary(Tight(1, 1), g);
    TurnTakes(c, Tight(1, 1), w, FLAT, 201, x);
    var w' := TurnPair(c, Tight(1, 1), w, TurnAt(FLAT, 201));
    SteadyAfter(x, w'.g);
    TakenOver(w.e.desk, w'.e.desk, x.queue, 201, id);
    var i :| 0 <= i < |x.queue| && x.queue[i].Entry? && x.queue[i].key == STALE;
    assert x.queue[i] in x.queue;
  }

  lemma SlidesBack(g: Grid)
    requires Steady(g) && g.price == CLOSE && STALE !in g.placed
    ensures var x := Maintain(Tight(1, 1), g);
      exists i :: 0 <= i < |x.queue| && x.queue[i].Entry? && x.queue[i].key == STALE
  {
    var c := Tight(1, 1);
    hide Window, QueueLevels, Evenly, Tight, Stale;
    var r := Retract(g, Window(c, g));
    SameWindowRetracted(c, g);
    var x := QueueLevels(c, r, Window(c, r));
    SlidesOver(c, r, x);
    assert Maintain(c, g) == x;
  }

  lemma SameWindowRetracted(c: GridConfig, g: Grid)
    ensures Window(c, Retract(g, Window(c, g))) == Window(c, g)
  {
  }

  /**
   Main result: a run from the start in which every cycle follows a failed read. Its second cycle marks a resting order
   to be cancelled; its third asks again for that order's side, and then no map holds the first order, which was never
   cancelled.
   */
  lemma FailedReadsLoseAnOrder(c: E.EngineConfig)
    requires Plain(c)
    ensures var gc, w := Tight(1, 1), StartPair(c, None, "day");
      var turns := [TurnAt(FLAT, 1), TurnAt(UP, 101), TurnAt(FLAT, 201)];
      var before, after := LoopPair(c, gc, w, turns[..2]), LoopPair(c, gc, w, turns);
      && STALE in before.e.desk.orders && !OnceAt(c, gc, w, turns, 2)
      && Untracked(after.e.desk, before.e.desk.orders[STALE])
      && forall e :: e in after.e.desk.trace ==> !e.CancelOrder? && !e.CancelAll?
  {
    hide TurnPair, StartPair, Tight, Steady, AsksOnce, Untracked, PollPair;
    var gc, w := Tight(1, 1), StartPair(c, None, "day");
    var turns := [TurnAt(FLAT, 1), TurnAt(UP, 101), TurnAt(FLAT, 201)];
    StartIsPlain(c);
    FirstTurn(c);
    var w1 := TurnPair(c, gc, w, turns[0]);
    var id := w1.e.desk.orders[STALE];
    SecondTurn(c, w1, id);
    var w2 := TurnPair(c, gc, w1, turns[1]);
    ThirdTurn(c, w2, id);
    assert turns[..0] == [] && turns[..1] == [turns[0]] && turns[..2][..1] == turns[..1] && turns[..3] == turns;
    assert LoopPair(c, gc, w, turns[..1]) == w1;
    assert LoopPair(c, gc, w, turns[..2]) == w2;
  }
}
