/** Exactly when a run of the sliding grid under the live engine never asks for a side whose order still rests. */
module AskedOnce {
  import opened Market
  import opened GridModel
  import D = DrainAgreement
  import opened GridTracking
  import opened Quiescence
  import opened SlideAsks
  import opened LiveGridModel
  import opened LiveMatching
  import opened LiveGrid
  import opened LiveGridRun
  import E = EngineModel

  // ---- The asking of one cycle

  lemma FewerTracked(g: Grid, orders: set<Key>, fewer: set<Key>)
    requires Tracks(g, orders) && fewer <= orders
    ensures Tracks(g, fewer)
  {
  }

  lemma TracksInSession(g: Grid, orders: set<Key>)
    requires Tracks(g, orders) && g.queue != []
    ensures g.queue[0].Entry? && g.anchor.Some? && (g.active || g.closing)
  {
    assert g.queue[0].key in g.placed;
  }

  /** The call takes the head of the queue. */
  lemma HeadIsAnswered(gc: GridConfig, g: Grid, bars: seq<Bar>, orders: set<Key>)
    requires bars != [] && Tracks(g, orders) && g.queue != []
    ensures var (g1, s) := Generate(gc, g, bars);
      s.Some? && s.value.Entry? && g.queue == [s.value] + g1.queue && Tracks(g1, orders + {s.value.key})
  {
    hide Tracks, Generate, SlidesClear, StartBar, OutOfReach;
    TracksInSession(g, orders);
    D.GeneratePops(gc, g, bars);
    GenerateTracks(gc, g, orders, bars);
  }

  /** What is queued is asked for, or stays queued. */
  lemma {:induction false} AsksConserve(gc: GridConfig, g: Grid, bars: seq<Bar>, n: nat, orders: set<Key>)
    requires bars != [] && Tracks(g, orders)
    ensures var (g', sigs) := Asks(gc, g, bars, n); forall s :: s in g.queue ==> s in sigs || s in g'.queue
    decreases n
  {
    hide Tracks, Generate;
    if n > 0 && g.queue != [] {
      hide Asks;
      AsksOne(gc, g, bars, n);
      HeadIsAnswered(gc, g, bars, orders);
      var (g1, s) := Generate(gc, g, bars);
      AsksConserve(gc, g1, bars, n - 1, orders + {s.value.key});
    }
  }

  /** What a slide queues is asked for, or stays queued. */
  lemma SlideIsAsked(gc: GridConfig, g: Grid, bars: seq<Bar>, n: nat, orders: set<Key>)
    requires bars != [] && n > 0 && Tracks(g, orders) && g.queue == []
    requires var g1 := StartBar(g, bars[|bars|-1]); Slides(gc, g1) && OutOfReach(gc, g1, {})
    ensures var (g', sigs) := Asks(gc, g, bars, n);
      var g1 := StartBar(g, bars[|bars|-1]);
      forall s :: s in Maintain(gc, Trim(gc, g1)).queue ==> s in sigs || s in g'.queue
  {
    hide Tracks, StartBar, Trim, Maintain, OutOfReach;
    var g1 := StartBar(g, bars[|bars|-1]);
    StartBarTracks(g, orders, bars[|bars|-1]);
    var (g2, s) := Generate(gc, g, bars);
    assert (g2, s) == PopSignal(Maintain(gc, Trim(gc, g1)));
    FewerTracked(g, orders, {});
    GenerateTracks(gc, g, {}, bars);
    if s.Some? && s.value.Entry? {
      AsksConserve(gc, g2, bars, n - 1, Ordered({}, s));
      assert Maintain(gc, Trim(gc, g1)).queue == [s.value] + g2.queue;
    }
  }

  lemma SameReachBack(c: GridConfig, g: Grid, g': Grid, orders: set<Key>)
    requires !OutOfReach(c, g, orders) && g' == g.(queue := g'.queue)
    ensures !OutOfReach(c, g', orders)
  {
    hide OutOfReach;
    if OutOfReach(c, g', orders) {
      SameReach(c, g', g, orders);
    }
  }

  /** What is queued or asked for is for a side with an order. */
  ghost predicate AsksOrdered(g: Grid, sigs: seq<Signal>, orders: set<Key>) {
    exists s :: (s in sigs || s in g.queue) && s.Entry? && s.key in orders
  }

  lemma SlideAsksOrdered(gc: GridConfig, g: Grid, bars: seq<Bar>, n: nat, orders: set<Key>)
    requires bars != [] && n > 0 && Tracks(g, orders) && g.queue == []
    requires var g1 := StartBar(g, bars[|bars|-1]); Slides(gc, g1) && !OutOfReach(gc, g1, orders)
    ensures var (g', sigs) := Asks(gc, g, bars, n); AsksOrdered(g', sigs, orders)
  {
    var g1 := StartBar(g, bars[|bars|-1]);
    StartBarTracks(g, orders, bars[|bars|-1]);
    CycleAvoidsOrdersIff(gc, g1, orders);
    assert OutOfReach(gc, g1, {});
    hide Tracks, StartBar, Trim, Maintain, OutOfReach;
    SlideIsAsked(gc, g, bars, n, orders);
    var queue := Maintain(gc, Trim(gc, g1)).queue;
    var i :| 0 <= i < |queue| && queue[i].Entry? && queue[i].key in orders;
    assert queue[i] in queue;
  }

  /** Calls that come to slide the window within reach of such an order ask for a side with an order. */
  lemma {:induction false} UnclearAsksOrdered(gc: GridConfig, g: Grid, bars: seq<Bar>, n: nat, orders: set<Key>)
    requires bars != [] && Tracks(g, orders) && |g.queue| < n
    requires var g1 := StartBar(g, bars[|bars|-1]); Slides(gc, g1) && !OutOfReach(gc, g1, orders)
    ensures var (g', sigs) := Asks(gc, g, bars, n); AsksOrdered(g', sigs, orders)
    decreases n
  {
    hide Tracks, Trim, Maintain, OutOfReach, Slides, Generate, StartBar;
    if g.queue == [] {
      SlideAsksOrdered(gc, g, bars, n, orders);
    } else {
      TracksInSession(g, orders);
      D.GeneratePops(gc, g, bars);
      GenerateTracks(gc, g, orders, bars);
      var (g1, s) := Generate(gc, g, bars);
      FewerTracked(g1, Ordered(orders, s), orders);
      SameBarAgain(g1, bars[|bars|-1]);
      SameReachBack(gc, StartBar(g, bars[|bars|-1]), g1, orders);
      SameSlides(gc, StartBar(g, bars[|bars|-1]), g1);
      UnclearAsksOrdered(gc, g1, bars, n - 1, orders);
      var (g2, rest) := Asks(gc, g1, bars, n - 1);
      var x :| (x in rest || x in g2.queue) && x.Entry? && x.key in orders;
      assert x in [s.value] + rest || x in g2.queue;
    }
  }

  lemma SameSlides(c: GridConfig, g: Grid, g': Grid)
    requires Slides(c, g) && g' == g.(queue := g'.queue)
    ensures Slides(c, g')
  {
  }

  // ---- One cycle

  /** Nothing that a cycle asks for, or leaves queued, is for a side whose order rests. */
  ghost predicate AsksOnce(c: E.EngineConfig, gc: GridConfig, w: Pair, y: GridCycle) {
    E.StartCycle(c, w.e, StartOf(c, gc, w, y)).1 ==>
      var (g', sigs) := Asks(gc, ToldAt(c, gc, w, y), y.bars, E.MAX_DRAIN + 1);
      !AsksOrdered(g', sigs, w.e.desk.orders.Keys)
  }

  lemma AskedIsNotOrdered(g: Grid, g': Grid, sigs: seq<Signal>, orders: set<Key>)
    requires Asked(g, g', sigs, orders)
    ensures !AsksOrdered(g', sigs, orders)
  {
    FewerTracked(g', orders + EntryKeys(sigs), orders);
    forall s | s in sigs && s.Entry? ensures s.key !in orders {
      assert s.key in EntryKeys(sigs);
    }
    forall s | s in g'.queue ensures s.Entry? && s.key !in orders {
      var i :| 0 <= i < |g'.queue| && g'.queue[i] == s;
    }
  }

  lemma CycleAsksOnceIff(c: E.EngineConfig, gc: GridConfig, w: Pair, y: GridCycle)
    requires Live(w.e.desk, w.g, {}, false)
    ensures AsksOnce(c, gc, w, y) <==> CycleIsClear(c, gc, w, y)
  {
    hide Live, HearNew, StartOf, E.StartCycle, Asks, Tracks, Asked, AsksOrdered, OutOfReach, Slides, StartBar;
    StartCloses(c, gc, w, y);
    StartKeeps(c, w, StartOf(c, gc, w, y), false);
    var g1, orders := ToldAt(c, gc, w, y), w.e.desk.orders.Keys;
    if E.StartCycle(c, w.e, StartOf(c, gc, w, y)).1 {
      if AsksClear(gc, g1, y.bars, E.MAX_DRAIN + 1, orders) {
        AsksTrack(gc, g1, y.bars, E.MAX_DRAIN + 1, orders);
        var (g2, sigs) := Asks(gc, g1, y.bars, E.MAX_DRAIN + 1);
        AskedIsNotOrdered(g1, g2, sigs, orders);
      } else {
        UnclearAsksOrdered(gc, g1, y.bars, E.MAX_DRAIN + 1, orders);
      }
    }
  }

  // ---- Runs

  /** The cycle of turn `m` asks for no side whose order rests. */
  ghost predicate OnceAt(c: E.EngineConfig, gc: GridConfig, w: Pair, turns: seq<GridTurn>, m: nat)
    requires m < |turns|
  {
    var w1 := LoopPair(c, gc, w, turns[..m]);
    w1.e.breaker.running && turns[m].cycle.Some? ==>
      AsksOnce(c, gc, PollPair(c, w1, turns[m].poll), turns[m].cycle.value)
  }

  lemma TurnAsksOnceIff(c: E.EngineConfig, gc: GridConfig, w: Pair, turns: seq<GridTurn>, m: nat)
    requires WalksOnce(c) && m < |turns|
    requires var w1 := LoopPair(c, gc, w, turns[..m]); Live(w1.e.desk, w1.g, {}, false)
    ensures OnceAt(c, gc, w, turns, m) <==> ClearAt(c, gc, w, turns, m)
  {
    hide Live, LoopPair, PollPair, AsksOnce, CycleIsClear;
    var w1 := LoopPair(c, gc, w, turns[..m]);
    PollKeeps(c, w1, turns[m].poll, false);
    if turns[m].cycle.Some? {
      CycleAsksOnceIff(c, gc, PollPair(c, w1, turns[m].poll), turns[m].cycle.value);
    }
  }

  ghost predicate AlwaysOnce(c: E.EngineConfig, gc: GridConfig, w: Pair, turns: seq<GridTurn>) {
    forall m: nat :: m < |turns| ==> OnceAt(c, gc, w, turns, m)
  }

  lemma OnceSplit(c: E.EngineConfig, gc: GridConfig, w: Pair, turns: seq<GridTurn>)
    requires turns != []
    ensures AlwaysOnce(c, gc, w, turns) <==>
      AlwaysOnce(c, gc, w, turns[..|turns|-1]) && OnceAt(c, gc, w, turns, |turns| - 1)
  {
    hide LoopPair, AsksOnce, PollPair;
    var init := turns[..|turns|-1];
    forall m: nat | m < |init| ensures OnceAt(c, gc, w, init, m) == OnceAt(c, gc, w, turns, m) {
      assert init[..m] == turns[..m];
    }
    if AlwaysOnce(c, gc, w, init) && OnceAt(c, gc, w, turns, |init|) {
      forall m: nat | m < |turns| ensures OnceAt(c, gc, w, turns, m) {
        assert m < |init| ==> OnceAt(c, gc, w, init, m);
      }
    }
  }

  lemma {:induction false} PairAsksOnceIff(c: E.EngineConfig, gc: GridConfig, w: Pair, turns: seq<GridTurn>)
    requires WalksOnce(c) && Live(w.e.desk, w.g, {}, false)
    ensures AlwaysOnce(c, gc, w, turns) <==> AlwaysClear(c, gc, w, turns)
  {
    hide Live, LoopPair, OnceAt, ClearAt, NamesTrades;
    if turns != [] {
      var init := turns[..|turns|-1];
      PairAsksOnceIff(c, gc, w, init);
      OnceSplit(c, gc, w, turns);
      ClearSplit(c, gc, w, turns);
      if AlwaysClear(c, gc, w, init) {
        RunIsLive(c, gc, w, init, false);
        TurnAsksOnceIff(c, gc, w, turns, |init|);
      }
    }
  }

  /**
   Main result: a run from the start never asks for a side whose order rests if and only if every cycle that slides the
   window finds the orders that are still to be cancelled out of reach; and then orders and trades are the strategy's
   sides.
   */
  lemma RunAsksOnceIff(c: E.EngineConfig, gc: GridConfig, seed: Option<real>, today: string, turns: seq<GridTurn>)
    requires WalksOnce(c)
    ensures var w := StartPair(c, seed, today);
      && (AlwaysOnce(c, gc, w, turns) <==> AlwaysClear(c, gc, w, turns))
      && (AlwaysOnce(c, gc, w, turns) ==> var w' := LoopPair(c, gc, w, turns); SidesAgree(w'.e.desk, w'.g))
  {
    hide LoopPair, ClearAt, OnceAt, Live, SidesAgree;
    StartIsLive(c, seed, today, false);
    PairAsksOnceIff(c, gc, StartPair(c, seed, today), turns);
    if AlwaysClear(c, gc, StartPair(c, seed, today), turns) {
      ClearRunsAgree(c, gc, seed, today, turns);
    }
  }
}
