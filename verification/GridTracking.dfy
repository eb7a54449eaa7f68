/**
 What the sliding grid keeps towards orders that rest at a broker or are about to: the weaker agreement that survives
 failed reads, lost signals and refused orders.
 */
module GridTracking {
  import opened Market
  import opened Ladder
  import opened Rounding
  import opened GridModel
  import opened DrainAgreement
  import opened RetiredLevels

  /** Waiting signals are entries for different placed sides that have no order. */
  ghost predicate Waits(g: Grid, orders: set<Key>, sigs: seq<Signal>) {
    && (forall i :: 0 <= i < |sigs| ==> sigs[i].Entry? && sigs[i].key in g.placed && sigs[i].key !in orders)
    && (forall i, j :: 0 <= i < j < |sigs| ==> sigs[i].Entry? && sigs[j].Entry? && sigs[i].key != sigs[j].key)
  }

  /** Without an anchor, or paused with no close-all under way, the strategy holds nothing. */
  ghost predicate HoldsNothing(g: Grid) {
    && (g.anchor.None? ==> !g.closing)
    && (g.anchor.None? || (!g.active && !g.closing) ==> g.placed == {} && g.filled == {} && g.pendingClose == {})
  }

  /** Every order is for a side that is placed or to be closed, and for none that is live. */
  ghost predicate Tracks(g: Grid, orders: set<Key>) {
    && orders <= g.placed + g.pendingClose
    && orders !! g.filled && g.placed !! g.filled
    && Waits(g, orders, g.queue) && HoldsNothing(g)
  }

  /** An order that is to be cancelled is outside the window, retired, or for a side that cannot be placed. */
  ghost predicate Parked(c: GridConfig, g: Grid, orders: set<Key>) {
    forall k :: k in orders && k !in g.placed ==>
      k.level !in Window(c, g) || k.level in g.retired || Unplaceable(c, g, k)
  }

  /** It will be once the next slide has trimmed. */
  ghost predicate OutOfReach(c: GridConfig, g: Grid, orders: set<Key>) {
    forall k :: k in orders && k !in g.placed ==>
      k.level !in Window(c, g) || k.level in Trim(c, g).retired || Unplaceable(c, g, k)
  }

  /** The cycle slides the window when it comes to decide. */
  predicate Slides(c: GridConfig, g: Grid) {
    g.anchor.Some? && g.active && !g.closing && !DailyTripped(c, g) && SessionExit(c, g).None?
  }

  /** Should the cycle slide, it finds every order that is to be cancelled out of reach. */
  ghost predicate SlidesClear(c: GridConfig, g: Grid, orders: set<Key>) {
    Slides(c, g) ==> OutOfReach(c, g, orders)
  }

  // ---- Trimming and sliding

  lemma {:induction false} RetireAllMarks(g: Grid, levels: seq<int>)
    ensures g.pendingClose <= RetireAll(g, levels).pendingClose
  {
    if levels != [] {
      RetireAllMarks(g, levels[..|levels|-1]);
    }
  }

  lemma TrimMarks(c: GridConfig, g: Grid)
    ensures g.pendingClose <= Trim(c, g).pendingClose
  {
    if g.anchor.Some? {
      RetireAllMarks(g, Drop(ActiveAbove(g), CapAbove(c, g)));
      RetireAllMarks(RetireAll(g, Drop(ActiveAbove(g), CapAbove(c, g))), Drop(ActiveBelow(g), CapBelow(c, g)));
    }
  }

  lemma ParkedIsOutOfReach(c: GridConfig, g: Grid, orders: set<Key>)
    requires Parked(c, g, orders)
    ensures OutOfReach(c, g, orders)
  {
    RetiredGrows(c, g);
    hide Trim, Window, Unplaceable;
  }

  lemma PlacedIsOutOfReach(c: GridConfig, g: Grid, orders: set<Key>)
    requires orders <= g.placed
    ensures OutOfReach(c, g, orders)
  {
  }

  lemma TrimTracks(c: GridConfig, g: Grid, orders: set<Key>)
    requires Tracks(g, orders) && OutOfReach(c, g, orders) && g.anchor.Some? && g.active
    ensures Tracks(Trim(c, g), orders) && Parked(c, Trim(c, g), orders)
  {
    TrimFrame(c, g);
    TrimMarks(c, g);
    hide Trim;
    assert Window(c, Trim(c, g)) == Window(c, g);
    assert forall k :: Unplaceable(c, Trim(c, g), k) == Unplaceable(c, g, k);
    hide Window, Unplaceable;
  }

  lemma RetractTracks(c: GridConfig, g: Grid, orders: set<Key>)
    requires Tracks(g, orders) && Parked(c, g, orders) && g.anchor.Some? && g.active && g.queue == []
    ensures var g' := Retract(g, Window(c, g));
      Tracks(g', orders) && Parked(c, g', orders) && Window(c, g') == Window(c, g)
  {
    var g' := Retract(g, Window(c, g));
    assert Window(c, g') == Window(c, g);
    assert forall k :: Unplaceable(c, g', k) == Unplaceable(c, g, k);
    hide Window, Unplaceable;
  }

  /** One more side is placed and its signal waits. */
  lemma AddedTracks(g: Grid, orders: set<Key>, s: Signal)
    requires Tracks(g, orders) && g.anchor.Some? && g.active && s.Entry?
    requires s.key !in g.placed && s.key !in g.filled && s.key !in orders
    ensures Tracks(g.(placed := g.placed + {s.key}, queue := g.queue + [s]), orders)
  {
  }

  lemma MissingIsParked(c: GridConfig, g: Grid, orders: set<Key>, k: Key)
    requires Parked(c, g, orders)
    ensures Parked(c, QueueMissing(c, g, k), orders)
    ensures k.level in Window(c, g) && k.level !in g.retired && QueueMissing(c, g, k) != g ==>
      k !in g.placed && k !in orders
  {
    var g' := QueueMissing(c, g, k);
    assert Window(c, g') == Window(c, g);
    assert forall l :: Unplaceable(c, g', l) == Unplaceable(c, g, l);
    hide Window, Unplaceable, SideStopLoss;
  }

  lemma MissingTracks(c: GridConfig, g: Grid, orders: set<Key>, k: Key)
    requires Tracks(g, orders) && Parked(c, g, orders) && g.anchor.Some? && g.active
    requires k.level in Window(c, g) && k.level !in g.retired
    ensures var g' := QueueMissing(c, g, k);
      Tracks(g', orders) && Parked(c, g', orders) && g' == g.(placed := g'.placed, queue := g'.queue)
  {
    hide Window, Unplaceable, SideStopLoss, Tracks, Parked;
    MissingIsParked(c, g, orders, k);
    if QueueMissing(c, g, k) != g {
      AddedTracks(g, orders, EntrySignal(c, g, k, false));
    }
  }

  lemma LevelTracks(c: GridConfig, g: Grid, orders: set<Key>, level: int)
    requires Tracks(g, orders) && Parked(c, g, orders) && g.anchor.Some? && g.active && level in Window(c, g)
    ensures var g' := QueueLevel(c, g, level);
      Tracks(g', orders) && Parked(c, g', orders) && g' == g.(placed := g'.placed, queue := g'.queue)
  {
    if level !in g.retired {
      MissingTracks(c, g, orders, Key(level, Long));
      var g1 := QueueMissing(c, g, Key(level, Long));
      assert Window(c, g1) == Window(c, g);
      hide Window, QueueMissing, Tracks, Parked;
      MissingTracks(c, g1, orders, Key(level, Short));
    }
  }

  lemma {:induction false} LevelsTrack(c: GridConfig, g: Grid, orders: set<Key>, levels: seq<int>)
    requires Tracks(g, orders) && Parked(c, g, orders) && g.anchor.Some? && g.active
    requires forall i :: 0 <= i < |levels| ==> levels[i] in Window(c, g)
    ensures var g' := QueueLevels(c, g, levels);
      Tracks(g', orders) && Parked(c, g', orders) && g' == g.(placed := g'.placed, queue := g'.queue)
  {
    if levels != [] {
      hide QueueLevel, Tracks, Parked;
      LevelsTrack(c, g, orders, levels[..|levels|-1]);
      var g1 := QueueLevels(c, g, levels[..|levels|-1]);
      assert Window(c, g1) == Window(c, g);
      hide Window;
      LevelTracks(c, g1, orders, levels[|levels|-1]);
    }
  }

  lemma MaintainTracks(c: GridConfig, g: Grid, orders: set<Key>)
    requires Tracks(g, orders) && Parked(c, g, orders) && g.anchor.Some? && g.active && g.queue == []
    ensures Tracks(Maintain(c, g), orders) && Parked(c, Maintain(c, g), orders) && Maintain(c, g).filled == g.filled
  {
    RetractTracks(c, g, orders);
    hide Tracks, Parked, Window, QueueLevels;
    LevelsTrack(c, Retract(g, Window(c, g)), orders, Window(c, g));
  }

  // ---- A new session

  lemma AnchorSideTracks(c: GridConfig, g: Grid, k: Key)
    requires Tracks(g, {}) && g.anchor.Some? && g.active && k !in g.placed && k !in g.filled
    ensures var g' := QueueSide(c, g, k, true);
      Tracks(g', {}) && g' == g.(placed := g'.placed, queue := g'.queue) && g.placed <= g'.placed <= g.placed + {k}
  {
    hide Unplaceable, SideStopLoss, Tracks;
    if QueueSide(c, g, k, true) != g {
      AddedTracks(g, {}, EntrySignal(c, g, k, true));
    }
  }

  lemma PairTracks(c: GridConfig, g: Grid)
    requires Tracks(g, {}) && g.anchor.Some? && g.active && g.placed == {} && g.filled == {} && g.pendingClose == {}
    ensures var g' := PlaceAnchorPair(c, g);
      Tracks(g', {}) && g' == g.(placed := g'.placed, queue := g'.queue) && Retract(g', Window(c, g')) == g'
  {
    hide Tracks, QueueSide, Window, Retract;
    var level := Cents(g.anchor.value);
    AnchorSideTracks(c, g, Key(level, Long));
    var g1 := QueueSide(c, g, Key(level, Long), true);
    AnchorSideTracks(c, g1, Key(level, Short));
    var g2 := QueueSide(c, g1, Key(level, Short), true);
    assert PlaceAnchorPair(c, g) == g2;
    AnchorIsNotStale(g2, Window(c, g2));
  }

  lemma InitTracks(c: GridConfig, g: Grid, orders: set<Key>)
    requires Tracks(g, orders) && g.anchor.None? && g.active && g.queue == []
    ensures var g' := InitSession(c, g); Tracks(g', orders) && Parked(c, g', orders) && g'.filled == g.filled
  {
    assert orders == {};
    var g0 := g.(anchor := Some(g.price), levels := BuildLadder(c.anchorGap, c.spacing, g.price));
    assert Tracks(g0, {});
    PairTracks(c, g0);
    hide PlaceAnchorPair, QueueLevels, Window, BuildLadder, Tracks;
    var g1 := PlaceAnchorPair(c, g0);
    LevelsTrack(c, g1, {}, Window(c, g1));
  }

  // ---- One answer

  /** The orders once the side of an entry counts as ordered. */
  function Ordered(orders: set<Key>, s: Option<Signal>): set<Key> {
    if s.Some? && s.value.Entry? then orders + {s.value.key} else orders
  }

  /** The state after an answer: no entry is for an ordered side. */
  ghost predicate Answered(g: Grid, orders: set<Key>, s: Option<Signal>) {
    && Tracks(g, Ordered(orders, s))
    && (s.Some? ==> if s.value.Entry? then s.value.key !in orders && g.anchor.Some? else g.closing)
  }

  lemma PopTracks(g: Grid, orders: set<Key>)
    requires Tracks(g, orders)
    ensures var (g', s) := PopSignal(g); Answered(g', orders, s)
  {
    if g.queue != [] {
      assert g.queue[0].key in g.placed;
    }
  }

  /** A side whose entry is popped was placed, so no order comes within reach. */
  lemma PopReaches(c: GridConfig, g: Grid, orders: set<Key>)
    requires Tracks(g, orders) && OutOfReach(c, g, orders)
    ensures var (g', s) := PopSignal(g); OutOfReach(c, g', Ordered(orders, s))
  {
    if g.queue != [] {
      var g' := PopSignal(g).0;
      assert g.queue[0].key in g.placed;
      SameReach(c, g, g', orders);
      hide OutOfReach, Tracks;
      StillOutOfReach(c, g', orders, g.queue[0].key);
    }
  }

  lemma StillOutOfReach(c: GridConfig, g: Grid, orders: set<Key>, k: Key)
    requires OutOfReach(c, g, orders) && k in g.placed
    ensures OutOfReach(c, g, orders + {k})
  {
    hide Trim, Window, Unplaceable;
  }

  lemma SameReach(c: GridConfig, g: Grid, g': Grid, orders: set<Key>)
    requires OutOfReach(c, g, orders) && g' == g.(queue := g'.queue)
    ensures OutOfReach(c, g', orders)
  {
    SameTrim(c, g, g');
    hide Trim;
    assert Window(c, g') == Window(c, g);
    assert forall k :: Unplaceable(c, g', k) == Unplaceable(c, g, k);
    hide Window, Unplaceable;
  }

  lemma {:induction false} SameRetired(g: Grid, g': Grid, levels: seq<int>)
    requires g' == g.(queue := g'.queue)
    ensures RetireAll(g', levels) == RetireAll(g, levels).(queue := g'.queue)
  {
    if levels != [] {
      SameRetired(g, g', levels[..|levels|-1]);
    }
  }

  lemma SameTrim(c: GridConfig, g: Grid, g': Grid)
    requires g' == g.(queue := g'.queue)
    ensures Trim(c, g').retired == Trim(c, g).retired
  {
    if g.anchor.Some? {
      assert ActiveAbove(g') == ActiveAbove(g) && ActiveBelow(g') == ActiveBelow(g);
      var above := Drop(ActiveAbove(g), CapAbove(c, g));
      SameRetired(g, g', above);
      SameRetired(RetireAll(g, above), RetireAll(g', above), Drop(ActiveBelow(g), CapBelow(c, g)));
    }
  }

  /** The head of a queue that was built with every order parked. */
  lemma HeadTracks(c: GridConfig, g: Grid, orders: set<Key>)
    requires Tracks(g, orders) && Parked(c, g, orders)
    ensures var (g', s) := PopSignal(g); Answered(g', orders, s) && SlidesClear(c, g', Ordered(orders, s))
  {
    PopTracks(g, orders);
    ParkedIsOutOfReach(c, g, orders);
    PopReaches(c, g, orders);
    hide Answered, Tracks, Parked, OutOfReach, Slides;
  }

  lemma DecideTracks(c: GridConfig, g: Grid, orders: set<Key>)
    requires Tracks(g, orders) && SlidesClear(c, g, orders) && g.queue == [] && !g.closing
    ensures var (g', s) := Decide(c, g);
      Answered(g', orders, s) && SlidesClear(c, g', Ordered(orders, s)) && g'.filled == g.filled
  {
    hide InitSession, Trim, Maintain, Tracks, Parked, OutOfReach, Answered, DailyTripped, SessionExit;
    if g.active && !DailyTripped(c, g) && SessionExit(c, g).None? {
      if g.anchor.None? {
        InitTracks(c, g, orders);
        HeadTracks(c, InitSession(c, g), orders);
      } else {
        TrimTracks(c, g, orders);
        TrimFrame(c, g);
        MaintainTracks(c, Trim(c, g), orders);
        HeadTracks(c, Maintain(c, Trim(c, g)), orders);
      }
      hide SlidesClear, PopSignal;
      assert Decide(c, g) == PopSignal(if g.anchor.None? then InitSession(c, g) else Maintain(c, Trim(c, g)));
      PopFilled(if g.anchor.None? then InitSession(c, g) else Maintain(c, Trim(c, g)));
    } else {
      StopTracks(c, g, orders);
    }
  }

  lemma PopFilled(g: Grid)
    ensures PopSignal(g).0.filled == g.filled
  {
  }

  lemma StopTracks(c: GridConfig, g: Grid, orders: set<Key>)
    requires Tracks(g, orders) && g.queue == [] && !g.closing
    requires !g.active || DailyTripped(c, g) || SessionExit(c, g).Some?
    ensures var (g', s) := Decide(c, g);
      Answered(g', orders, s) && !Slides(c, g') && g'.filled == g.filled
  {
    hide InitSession, Maintain, Trim;
  }

  lemma StartBarTracks(g: Grid, orders: set<Key>, bar: Bar)
    requires Tracks(g, orders)
    ensures var g' := StartBar(g, bar);
      && Tracks(g', orders) && g'.filled == g.filled && g'.queue == g.queue
      && (orders <= g.placed ==> orders <= g'.placed)
      && g'.price == bar.close && g'.date == bar.date
  {
    if g.queue != [] {
      assert g.queue[0].key in g.placed;
    }
  }

  /**
   A call of the strategy answers with no entry for an ordered side, if every order that is to be cancelled is out of
   reach should the call slide the window.
   */
  lemma GenerateTracks(c: GridConfig, g: Grid, orders: set<Key>, bars: seq<Bar>)
    requires bars != [] && Tracks(g, orders)
    requires g.queue == [] ==> SlidesClear(c, StartBar(g, bars[|bars|-1]), orders)
    ensures var (g', s) := Generate(c, g, bars);
      && Answered(g', orders, s) && g'.filled == g.filled
      && g'.price == bars[|bars|-1].close && g'.date == bars[|bars|-1].date
      && (SlidesClear(c, StartBar(g, bars[|bars|-1]), orders) ==> SlidesClear(c, g', Ordered(orders, s)))
      && (g.queue != [] ==> |g'.queue| == |g.queue| - 1)
  {
    var g1 := StartBar(g, bars[|bars|-1]);
    StartBarTracks(g, orders, bars[|bars|-1]);
    if g1.queue != [] {
      PopTracks(g1, orders);
      hide StartBar, Tracks, Answered;
      if SlidesClear(c, g1, orders) {
        PopSlidesClear(c, g1, orders);
      }
    } else if g1.closing {
      hide StartBar, OutOfReach;
    } else {
      hide Decide, StartBar, Tracks, Answered, SlidesClear;
      DecideTracks(c, g1, orders);
      DecideKeepsBar(c, g1);
    }
  }

  lemma PopSlidesClear(c: GridConfig, g: Grid, orders: set<Key>)
    requires Tracks(g, orders) && SlidesClear(c, g, orders)
    ensures var (g', s) := PopSignal(g); SlidesClear(c, g', Ordered(orders, s))
  {
    if Slides(c, g) {
      PopReaches(c, g, orders);
    }
    hide OutOfReach, Tracks;
  }
}
