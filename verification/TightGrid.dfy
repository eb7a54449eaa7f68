/** A grid whose every side can rest at its first close, and what its first call queues. */
module TightGrid {
  import opened Market
  import opened Rounding
  import opened Ladder
  import opened LadderShape
  import opened GridModel
  import opened RestingOrders
  import opened AnchorPair

  /**
   Levels ten apart around a close of 1000; a session ends at a floating loss of 0.5, the cost of an anchor pair is
   1.
   */
  function Tight(ahead: nat, behind: nat): GridConfig {
    GridConfig(10.0, 10.0, 0.0, 1.0, 1.0, 1.0, ahead, behind, 100.0, 0.5, 100.0)
  }

  const CLOSE: real := 1000.0
  const ANCHOR: int := 100000

  // ---- The ladder at that close

  function TightLadder(): seq<int> {
    BuildLadder(10.0, 10.0, CLOSE)
  }

  lemma TightLevel(j: int)
    ensures LevelAt(10.0, 10.0, CLOSE, j) == ANCHOR + 1000 * j
  {
    hide Nominal;
    assert Price(1000) == 10.0 && CLOSE == Price(ANCHOR);
    NominalOffset(1000, 1000, CLOSE, j);
    assert Offset(1000, 1000, j) == 1000 * j;
    SumOfPrices(ANCHOR, 1000 * j);
  }

  lemma TightLevels(i: nat)
    requires i <= 2 * RUNGS
    ensures |TightLadder()| == 2 * RUNGS + 1 && Increasing(TightLadder())
    ensures TightLadder()[i] == ANCHOR + 1000 * (i - RUNGS)
  {
    hide BuildLadder, LevelAt;
    LadderIsStraightIff(10.0, 10.0, CLOSE);
    LadderIncreases(10.0, 10.0, CLOSE);
    TightLevel(i - RUNGS);
  }

  /** Levels ten apart, in order, with the anchor in the middle. */
  ghost predicate Evenly(levels: seq<int>) {
    && |levels| == 2 * RUNGS + 1 && Increasing(levels)
    && forall i :: 0 <= i <= 2 * RUNGS ==> levels[i] == ANCHOR + 1000 * (i - RUNGS)
  }

  lemma LadderIsEven()
    ensures Evenly(TightLadder())
  {
    TightLevels(0);
    forall i | 0 <= i <= 2 * RUNGS ensures TightLadder()[i] == ANCHOR + 1000 * (i - RUNGS) {
      TightLevels(i);
    }
  }

  lemma {:induction false} AboveFrom(levels: seq<int>, price: real, n: nat)
    requires n <= |levels|
    requires forall i :: 0 <= i < n ==> Price(levels[i]) <= price
    requires forall i :: n <= i < |levels| ==> Price(levels[i]) > price
    ensures LevelsAbove(levels, price) == levels[n..]
  {
    if |levels| > n {
      AboveFrom(levels[..|levels|-1], price, n);
      assert levels[n..] == levels[..|levels|-1][n..] + [levels[|levels|-1]];
    } else if levels != [] {
      AboveFrom(levels[..|levels|-1], price, n - 1);
    }
  }

  lemma {:induction false} NoneBelow(levels: seq<int>, price: real)
    requires forall i :: 0 <= i < |levels| ==> Price(levels[i]) >= price
    ensures LevelsBelow(levels, price) == []
  {
    if levels != [] {
      NoneBelow(levels[..|levels|-1], price);
    }
  }

  lemma {:induction false} BelowUpTo(levels: seq<int>, price: real, n: nat)
    requires n <= |levels|
    requires forall i :: 0 <= i < n ==> Price(levels[i]) < price
    requires forall i :: n <= i < |levels| ==> Price(levels[i]) >= price
    ensures var r := LevelsBelow(levels, price); |r| == n && forall j :: 0 <= j < n ==> r[j] == levels[n - 1 - j]
  {
    if n == 0 {
      NoneBelow(levels, price);
    } else {
      var init := levels[..|levels|-1];
      BelowUpTo(init, price, if |levels| > n then n else n - 1);
      hide Price;
      assert LevelsBelow(levels, price) ==
        if |levels| > n then LevelsBelow(init, price) else [levels[n - 1]] + LevelsBelow(init, price);
    }
  }

  lemma {:induction false} SortUniqueCount(xs: seq<int>)
    requires NoRepeats(xs)
    ensures |SortUnique(xs)| == |xs|
  {
    if xs != [] {
      var init, last := xs[..|xs|-1], xs[|xs|-1];
      LastIsNew(xs);
      SortUniqueCount(init);
      SortUniqueIsSorted(init);
      InsertUniqueIsSorted(SortUnique(init), last);
    }
  }

  /** The grid as it anchors at that close. */
  ghost predicate Anchoring(g: Grid) {
    g.price == CLOSE && g.anchor == Some(CLOSE) && Evenly(g.levels)
  }

  /** A level whole steps from the anchor, not at it and not at the end of the ladder. */
  predicate Inner(x: int) {
    x % 1000 == 0 && x != ANCHOR && ANCHOR - 99000 <= x <= ANCHOR + 99000
  }

  /** The levels above that close in order, and those below from the nearest down. */
  lemma TightSides(levels: seq<int>)
    requires Evenly(levels)
    ensures var r := LevelsAbove(levels, CLOSE);
      |r| == RUNGS && forall i :: 0 <= i < RUNGS ==> r[i] == ANCHOR + 1000 * (i + 1)
    ensures var r := LevelsBelow(levels, CLOSE);
      |r| == RUNGS && forall i :: 0 <= i < RUNGS ==> r[i] == ANCHOR - 1000 * (i + 1)
  {
    hide LevelsAbove, LevelsBelow;
    forall i | 0 <= i <= 2 * RUNGS
      ensures i <= RUNGS ==> Price(levels[i]) <= CLOSE
      ensures i < RUNGS ==> Price(levels[i]) < CLOSE
      ensures i >= RUNGS ==> Price(levels[i]) >= CLOSE
      ensures i > RUNGS ==> Price(levels[i]) > CLOSE
    {
      assert levels[i] == ANCHOR + 1000 * (i - RUNGS);
    }
    AboveFrom(levels, CLOSE, RUNGS + 1);
    BelowUpTo(levels, CLOSE, RUNGS);
  }

  /** Distinct inner levels of both sides, sorted into one window. */
  lemma JoinedSides(above: seq<int>, below: seq<int>)
    requires |above| <= 99 && |below| <= 99
    requires forall i :: 0 <= i < |above| ==> above[i] == ANCHOR + 1000 * (i + 1)
    requires forall i :: 0 <= i < |below| ==> below[i] == ANCHOR - 1000 * (i + 1)
    ensures var window := SortUnique(above + below);
      |window| == |above| + |below| && NoRepeats(window) && forall x :: x in window ==> Inner(x)
  {
    var xs := above + below;
    SidesAreApart(above, below);
    SortUniqueCount(xs);
    SortUniqueIsSorted(xs);
    hide SortUnique, Inner;
    forall x | x in SortUnique(xs) ensures Inner(x) {
      assert x in xs;
      var i :| 0 <= i < |xs| && xs[i] == x;
    }
  }

  lemma SidesAreApart(above: seq<int>, below: seq<int>)
    requires |above| <= 99 && |below| <= 99
    requires forall i :: 0 <= i < |above| ==> above[i] == ANCHOR + 1000 * (i + 1)
    requires forall i :: 0 <= i < |below| ==> below[i] == ANCHOR - 1000 * (i + 1)
    ensures var xs := above + below; NoRepeats(xs) && forall i :: 0 <= i < |xs| ==> Inner(xs[i])
  {
    var xs := above + below;
    forall i | 0 <= i < |xs|
      ensures xs[i] == if i < |above| then ANCHOR + 1000 * (i + 1) else ANCHOR - 1000 * (i - |above| + 1)
    {
    }
  }

  lemma TightWindow(c: GridConfig, g: Grid)
    requires Anchoring(g) && c == Tight(c.ahead, c.behind) && c.ahead <= 99 && c.behind <= 99
    ensures var window := Window(c, g);
      |window| == c.ahead + c.behind && NoRepeats(window) && forall x :: x in window ==> Inner(x)
  {
    TightSides(g.levels);
    hide LevelsAbove, LevelsBelow, SortUnique, Evenly;
    var above, below := LevelsAbove(g.levels, CLOSE), LevelsBelow(g.levels, CLOSE);
    assert Rising(g);
    JoinedSides(Take(above, c.ahead), Take(below, c.behind));
  }

  lemma RungHasStops(c: GridConfig, levels: seq<int>, x: int, side: Side, i: nat)
    requires 0 < i < |levels| - 1 && Increasing(levels) && c == Tight(c.ahead, c.behind)
    requires levels[i] == x && levels[i-1] == x - 1000 && levels[i+1] == x + 1000
    ensures SideStopLoss(c, levels, x, side) == Some(if side == Long then x - 1100 else x + 1100)
    ensures SideEntry(c, x, side) == x
  {
    FoundAt(levels, x, i);
    CentsOfPrice(x);
    StopOfLong(c, levels, x);
    StopOfShort(c, levels, x);
    SumOfPrices(x - 1000, -100);
    SumOfPrices(x + 1000, 100);
  }

  lemma InnerHasStops(c: GridConfig, levels: seq<int>, x: int, side: Side)
    requires Evenly(levels) && (Inner(x) || x == ANCHOR) && c == Tight(c.ahead, c.behind)
    ensures SideStopLoss(c, levels, x, side) == Some(if side == Long then x - 1100 else x + 1100)
    ensures SideEntry(c, x, side) == x
  {
    hide SideStopLoss, SideEntry;
    RungHasStops(c, levels, x, side, RUNGS + (x - ANCHOR) / 1000);
  }

  // ---- What the first call queues

  /** One unit, stopped beyond the close, and resting at its inner level, away from the close, if not at market. */
  predicate Calm(s: Signal) {
    && s.Entry? && s.units == 1.0
    && (if s.orderType == OrderType.Market then (if s.key.side == Long then s.stopLoss < CLOSE else s.stopLoss > CLOSE)
        else ClearOf(s, CLOSE) && Inner(s.key.level) && s.limitPrice == Price(s.key.level))
  }

  /** The queue grew by calm resting signals, two for each level. */
  ghost predicate Filling(g: Grid, g': Grid, levels: seq<int>) {
    && g' == g.(placed := g'.placed, queue := g'.queue)
    && |g'.queue| == |g.queue| + 2 * |levels| && g.queue <= g'.queue
    && (forall i :: |g.queue| <= i < |g'.queue| ==> Calm(g'.queue[i]) && g'.queue[i].orderType != OrderType.Market)
    && (forall k :: k in g'.placed ==> k in g.placed || k.level in levels)
  }

  lemma OneUnit()
    ensures Round1(1.0) == 1.0
  {
    RoundInteger(10);
  }

  lemma InnerIsFar(x: int)
    requires Inner(x)
    ensures Price(x) >= CLOSE + 10.0 || Price(x) <= CLOSE - 10.0
  {
    assert x >= ANCHOR + 1000 || x <= ANCHOR - 1000;
  }

  lemma InnerIsPlaceable(c: GridConfig, g: Grid, k: Key)
    requires Anchoring(g) && c == Tight(c.ahead, c.behind) && Inner(k.level)
    ensures !Unplaceable(c, g, k) && SideStopLoss(c, g.levels, k.level, k.side).Some?
  {
    InnerHasStops(c, g.levels, k.level, k.side);
    InnerIsFar(k.level);
    hide Evenly, SideStopLoss, SideEntry, Cents, Inner, Price;
  }

  lemma RestingIsCalm(c: GridConfig, g: Grid, k: Key)
    requires Anchoring(g) && c == Tight(c.ahead, c.behind) && Inner(k.level)
    requires SideStopLoss(c, g.levels, k.level, k.side).Some?
    ensures var s := EntrySignal(c, g, k, false); Calm(s) && s.orderType != OrderType.Market
  {
    InnerHasStops(c, g.levels, k.level, k.side);
    InnerIsFar(k.level);
    OneUnit();
    hide Evenly, SideStopLoss, SideEntry, Round1, Cents, Inner, Price;
  }

  lemma LevelFills(c: GridConfig, g: Grid, level: int)
    requires Anchoring(g) && c == Tight(c.ahead, c.behind) && Inner(level) && level !in g.retired
    requires forall side :: Key(level, side) !in g.placed && Key(level, side) !in g.filled
    ensures Filling(g, QueueLevel(c, g, level), [level])
  {
    hide Evenly, EntrySignal, Unplaceable, SideStopLoss, Calm, Inner;
    var k1, k2 := Key(level, Long), Key(level, Short);
    InnerIsPlaceable(c, g, k1);
    RestingIsCalm(c, g, k1);
    var g1 := QueueMissing(c, g, k1);
    InnerIsPlaceable(c, g1, k2);
    RestingIsCalm(c, g1, k2);
  }

  lemma FillingJoins(g: Grid, g1: Grid, g2: Grid, init: seq<int>, level: int)
    requires Filling(g, g1, init) && Filling(g1, g2, [level])
    ensures Filling(g, g2, init + [level])
  {
    hide Calm;
  }

  /** What the walk of these levels asks for. */
  ghost predicate Walkable(c: GridConfig, g: Grid, levels: seq<int>) {
    && Anchoring(g) && c == Tight(c.ahead, c.behind) && g.retired == {} && g.filled == {}
    && NoRepeats(levels) && (forall x :: x in levels ==> Inner(x)) && (forall k :: k in g.placed ==> k.level !in levels)
  }

  lemma WalkableInit(c: GridConfig, g: Grid, levels: seq<int>)
    requires Walkable(c, g, levels) && levels != []
    ensures var init, level := levels[..|levels|-1], levels[|levels|-1];
      && Walkable(c, g, init) && Inner(level) && level !in Elements(init)
      && forall k :: k in g.placed ==> k.level != level
  {
    hide Anchoring, Inner;
    LastIsNew(levels);
    assert levels == levels[..|levels|-1] + [levels[|levels|-1]];
  }

  lemma OneMoreLevel(c: GridConfig, g: Grid, g1: Grid, init: seq<int>, level: int)
    requires Walkable(c, g, init) && Filling(g, g1, init) && Inner(level)
    requires level !in Elements(init) && forall k :: k in g.placed ==> k.level != level
    ensures Filling(g, QueueLevel(c, g1, level), init + [level])
  {
    hide Evenly, QueueLevel, Calm, Inner;
    StillOpen(g, g1, init, level);
    LevelFills(c, g1, level);
    FillingJoins(g, g1, QueueLevel(c, g1, level), init, level);
  }

  lemma {:induction false} LevelsFill(c: GridConfig, g: Grid, levels: seq<int>)
    requires Walkable(c, g, levels)
    ensures Filling(g, QueueLevels(c, g, levels), levels)
  {
    hide Evenly, Calm, Inner;
    if levels != [] {
      hide QueueLevel, Walkable, Filling, Elements;
      var init, level := levels[..|levels|-1], levels[|levels|-1];
      WalkableInit(c, g, levels);
      LevelsFill(c, g, init);
      OneMoreLevel(c, g, QueueLevels(c, g, init), init, level);
      assert levels == init + [level];
    }
  }

  /** A level that was not walked has no side placed. */
  lemma StillOpen(g: Grid, g1: Grid, init: seq<int>, level: int)
    requires Filling(g, g1, init) && level !in Elements(init) && forall k :: k in g.placed ==> k.level != level
    ensures forall side :: Key(level, side) !in g1.placed
    ensures g1.filled == g.filled && g1.retired == g.retired && (Anchoring(g) ==> Anchoring(g1))
  {
    hide Evenly, Calm;
    forall side ensures Key(level, side) !in g1.placed {
      assert level in init ==> level in Elements(init);
    }
  }

  /** Nothing held, nothing waiting, at that close. */
  predicate Fresh(g: Grid) {
    g.price == CLOSE && g.queue == [] && g.placed == {} && g.filled == {} && g.retired == {} && g.pendingClose == {}
  }

  /** The queue of a first call: two calm market signals, then calm resting ones. */
  ghost predicate Opening(sigs: seq<Signal>, n: nat) {
    && |sigs| == 2 + 2 * n
    && forall i :: 0 <= i < |sigs| ==> Calm(sigs[i]) && (sigs[i].orderType == OrderType.Market <==> i < 2)
  }

  lemma MarketIsCalm(c: GridConfig, g: Grid, side: Side)
    requires Anchoring(g) && c == Tight(c.ahead, c.behind)
    ensures SideStopLoss(c, g.levels, ANCHOR, side).Some?
    ensures var s := EntrySignal(c, g, Key(ANCHOR, side), true); Calm(s) && s.orderType == OrderType.Market
  {
    InnerHasStops(c, g.levels, ANCHOR, side);
    OneUnit();
    hide Evenly, SideStopLoss, SideEntry, Round1, Cents;
  }

  lemma AnchorCents()
    ensures Cents(CLOSE) == ANCHOR
  {
    assert CLOSE == Price(ANCHOR);
    CentsOfPrice(ANCHOR);
  }

  lemma AnchorSideIsCalm(c: GridConfig, g: Grid, side: Side)
    requires Anchoring(g) && c == Tight(c.ahead, c.behind)
    ensures var k := Key(ANCHOR, side);
      var g' := QueueSide(c, g, k, true);
      && g' == g.(placed := g.placed + {k}, queue := g'.queue) && |g'.queue| == |g.queue| + 1 && g.queue <= g'.queue
      && Calm(g'.queue[|g.queue|]) && g'.queue[|g.queue|].orderType == OrderType.Market
  {
    MarketIsCalm(c, g, side);
    hide Evenly, SideStopLoss, EntrySignal, Calm, Unplaceable;
  }

  lemma PairIsCalm(c: GridConfig, g: Grid)
    requires Anchoring(g) && Fresh(g) && c == Tight(c.ahead, c.behind)
    ensures var g' := PlaceAnchorPair(c, g);
      && g' == g.(placed := {Key(ANCHOR, Long), Key(ANCHOR, Short)}, queue := g'.queue)
      && |g'.queue| == 2 && (forall i :: 0 <= i < 2 ==> Calm(g'.queue[i]) && g'.queue[i].orderType == OrderType.Market)
  {
    hide Evenly, Calm, Cents, QueueSide;
    AnchorCents();
    AnchorSideIsCalm(c, g, Long);
    AnchorSideIsCalm(c, QueueSide(c, g, Key(ANCHOR, Long), true), Short);
  }

  /** Nothing rests outside the anchor, so nothing is retracted and every window level can be walked. */
  lemma WindowIsWalkable(c: GridConfig, g: Grid)
    requires Anchoring(g) && c == Tight(c.ahead, c.behind) && c.ahead <= 99 && c.behind <= 99
    requires g.placed == {Key(ANCHOR, Long), Key(ANCHOR, Short)} && g.retired == {} && g.filled == {}
      && g.pendingClose == {}
    ensures Walkable(c, g, Window(c, g)) && |Window(c, g)| == c.ahead + c.behind
    ensures Retract(g, Window(c, g)) == g
  {
    hide Evenly, Window, Cents, Inner, Stale, Tight;
    AnchorCents();
    TightWindow(c, g);
    OutsideAnchor(Window(c, g));
    NothingStale(g, Window(c, g));
  }

  lemma NothingStale(g: Grid, window: seq<int>)
    requires AnchorLevel(g) == Some(ANCHOR) && forall k :: k in g.placed ==> k.level == ANCHOR
    ensures Stale(g, window) == {}
      && Retract(g, window) == g.(pendingClose := g.pendingClose + {}, placed := g.placed - {})
    ensures Retract(g, window) == g
  {
  }

  lemma FirstCallFills(c: GridConfig, g: Grid)
    requires Fresh(g) && c == Tight(c.ahead, c.behind) && c.ahead <= 99 && c.behind <= 99
    ensures var g' := InitSession(c, g);
      Opening(g'.queue, c.ahead + c.behind) && g'.pendingClose == {}
  {
    hide Window, BuildLadder, Calm, QueueLevels, PlaceAnchorPair, Inner, Walkable;
    LadderIsEven();
    var g0 := g.(anchor := Some(CLOSE), levels := TightLadder());
    PairIsCalm(c, g0);
    var g1 := PlaceAnchorPair(c, g0);
    WindowIsWalkable(c, g1);
    LevelsFill(c, g1, Window(c, g1));
    assert InitSession(c, g) == QueueLevels(c, g1, Window(c, g1));
  }

  lemma OutsideAnchor(window: seq<int>)
    requires forall x :: x in window ==> Inner(x)
    ensures ANCHOR !in window
  {
  }
}
