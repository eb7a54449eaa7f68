/** The drain and the trims keep the three copies in step. */
module DrainAgreement {
  import opened Market
  import opened Ladder
  import opened Rounding
  import opened GridModel
  import opened BrokerModel
  import opened RunnerModel
  import opened Books
  import opened BrokerProofs
  import opened Agreement

  // ---- The strategy's own moves

  /** What every move of the strategy keeps, given the keys resting at the broker. */
  ghost predicate GridOk(c: GridConfig, g: Grid, orders: set<Key>, sigs: seq<Signal>) {
    SidesOk(c, g, orders, sigs) && SessionOk(g) && g.placed !! g.filled
  }

  lemma RetireKeeps(c: GridConfig, g: Grid, orders: set<Key>, level: int)
    requires GridOk(c, g, orders, []) && g.anchor.Some? && level != Cents(g.anchor.value) && g.active
    ensures GridOk(c, Retire(g, level), orders, [])
  {
  }

  lemma {:induction false} RetireAllKeeps(c: GridConfig, g: Grid, orders: set<Key>, levels: seq<int>)
    requires GridOk(c, g, orders, []) && g.anchor.Some? && g.active
    requires forall i :: 0 <= i < |levels| ==> levels[i] != Cents(g.anchor.value)
    ensures var g' := RetireAll(g, levels);
      && GridOk(c, g', orders, [])
      && g' == g.(retired := g'.retired, pendingClose := g'.pendingClose)
  {
    if levels != [] {
      RetireAllKeeps(c, g, orders, levels[..|levels|-1]);
      RetireKeeps(c, RetireAll(g, levels[..|levels|-1]), orders, levels[|levels|-1]);
    }
  }

  lemma {:induction false} AboveIsAbove(levels: seq<int>, bound: int)
    ensures forall x :: x in Above(levels, bound) ==> x in levels && x > bound
    ensures forall x :: x in levels && x > bound ==> x in Above(levels, bound)
  {
    if levels != [] {
      var init, last := levels[..|levels|-1], levels[|levels|-1];
      AboveIsAbove(init, bound);
      assert levels == init + [last];
    }
  }

  lemma {:induction false} BelowIsBelow(levels: seq<int>, bound: int)
    ensures forall x :: x in Below(levels, bound) ==> x in levels && x < bound
    ensures forall x :: x in levels && x < bound ==> x in Below(levels, bound)
  {
    if levels != [] {
      var init, last := levels[..|levels|-1], levels[|levels|-1];
      BelowIsBelow(init, bound);
      assert levels == init + [last];
    }
  }

  lemma NearestSame(levels: seq<int>, price: real)
    ensures forall x :: x in NearestFirst(levels, price) ==> x in levels
    ensures forall x :: x in levels ==> x in NearestFirst(levels, price)
  {
    NearestFirstIsSorted(levels, price);
    forall x ensures x in NearestFirst(levels, price) <==> x in levels {
      assert x in multiset(NearestFirst(levels, price)) <==> x in multiset(levels);
    }
  }

  /** The trim never touches the anchor. */
  lemma TrimSpareAnchor(g: Grid)
    requires g.anchor.Some?
    ensures forall i :: 0 <= i < |ActiveAbove(g)| ==> ActiveAbove(g)[i] > Cents(g.anchor.value)
    ensures forall i :: 0 <= i < |ActiveBelow(g)| ==> ActiveBelow(g)[i] < Cents(g.anchor.value)
  {
    var anchor, active := Cents(g.anchor.value), ActiveLevels(g);
    AboveIsAbove(active, anchor);
    BelowIsBelow(active, anchor);
    NearestSame(Above(active, anchor), g.price);
    NearestSame(Below(active, anchor), g.price);
    var a, b := ActiveAbove(g), ActiveBelow(g);
    forall i | 0 <= i < |a| ensures a[i] > anchor {
      assert a[i] in a;
    }
    forall i | 0 <= i < |b| ensures b[i] < anchor {
      assert b[i] in b;
    }
  }

  lemma {:induction false} RetireAllExact(g: Grid, levels: seq<int>)
    ensures forall x :: x in RetireAll(g, levels).retired <==> x in g.retired || x in levels
  {
    if levels != [] {
      RetireAllExact(g, levels[..|levels|-1]);
      assert levels == levels[..|levels|-1] + [levels[|levels|-1]];
    }
  }

  lemma TrimRetiresNoAnchor(c: GridConfig, g: Grid)
    requires g.anchor.Some? && Cents(g.anchor.value) !in g.retired
    ensures Cents(g.anchor.value) !in Trim(c, g).retired
  {
    TrimSpareAnchor(g);
    var above, below := Drop(ActiveAbove(g), CapAbove(c, g)), Drop(ActiveBelow(g), CapBelow(c, g));
    RetireAllExact(g, above);
    RetireAllExact(RetireAll(g, above), below);
  }

  lemma TrimKeeps(c: GridConfig, g: Grid, orders: set<Key>)
    requires GridOk(c, g, orders, []) && g.anchor.Some? && g.active
    ensures var g' := Trim(c, g);
      && GridOk(c, g', orders, [])
      && g' == g.(retired := g'.retired, pendingClose := g'.pendingClose)
  {
    TrimSpareAnchor(g);
    var above, below := Drop(ActiveAbove(g), CapAbove(c, g)), Drop(ActiveBelow(g), CapBelow(c, g));
    RetireAllKeeps(c, g, orders, above);
    RetireAllKeeps(c, RetireAll(g, above), orders, below);
  }

  lemma RetractKeeps(c: GridConfig, g: Grid, orders: set<Key>)
    requires GridOk(c, g, orders, []) && g.anchor.Some? && g.active
    ensures GridOk(c, Retract(g, Window(c, g)), orders, [])
  {
  }

  lemma QueuedAppend(sigs: seq<Signal>, s: Signal)
    requires s.Entry?
    ensures Queued(sigs + [s], s.key)
    ensures forall k :: Queued(sigs, k) ==> Queued(sigs + [s], k)
  {
    assert (sigs + [s])[|sigs|] == s;
    forall k | Queued(sigs, k) ensures Queued(sigs + [s], k) {
      var i :| 0 <= i < |sigs| && sigs[i].Entry? && sigs[i].key == k;
      assert (sigs + [s])[i] == sigs[i];
    }
  }

  /** Queueing a side that is neither placed, filled, retired nor on its way out. */
  lemma AddSideKeeps(c: GridConfig, g: Grid, orders: set<Key>, s: Signal)
    requires GridOk(c, g, orders, g.queue) && g.anchor.Some? && g.active && s.Entry?
    requires s.key !in g.placed && s.key !in g.filled && s.key !in g.pendingClose
    requires s.key.level !in g.retired
    ensures var g' := g.(placed := g.placed + {s.key}, queue := g.queue + [s]);
      GridOk(c, g', orders, g'.queue)
  {
    var g' := g.(placed := g.placed + {s.key}, queue := g.queue + [s]);
    assert Window(c, g') == Window(c, g);
    QueuedAppend(g.queue, s);
  }

  lemma QueueMissingKeeps(c: GridConfig, g: Grid, orders: set<Key>, k: Key)
    requires GridOk(c, g, orders, g.queue) && g.anchor.Some? && g.active
    requires k.level in Window(c, g) && k.level !in g.retired
    ensures var g' := QueueMissing(c, g, k);
      && GridOk(c, g', orders, g'.queue)
      && g' == g.(placed := g'.placed, queue := g'.queue)
      && Window(c, g') == Window(c, g)
  {
    var g' := QueueMissing(c, g, k);
    if g' != g {
      AddSideKeeps(c, g, orders, EntrySignal(c, g, k, false));
    }
  }

  lemma {:induction false} QueueLevelsKeeps(c: GridConfig, g: Grid, orders: set<Key>, levels: seq<int>)
    requires GridOk(c, g, orders, g.queue) && g.anchor.Some? && g.active
    requires forall i :: 0 <= i < |levels| ==> levels[i] in Window(c, g)
    ensures var g' := QueueLevels(c, g, levels);
      && GridOk(c, g', orders, g'.queue)
      && g' == g.(placed := g'.placed, queue := g'.queue)
      && Window(c, g') == Window(c, g)
  {
    if levels != [] {
      QueueLevelsKeeps(c, g, orders, levels[..|levels|-1]);
      var g1, level := QueueLevels(c, g, levels[..|levels|-1]), levels[|levels|-1];
      if level !in g1.retired {
        QueueMissingKeeps(c, g1, orders, Key(level, Long));
        QueueMissingKeeps(c, QueueMissing(c, g1, Key(level, Long)), orders, Key(level, Short));
      }
    }
  }

  lemma MaintainKeeps(c: GridConfig, g: Grid, orders: set<Key>)
    requires GridOk(c, g, orders, []) && g.queue == [] && g.anchor.Some? && g.active
    ensures var g' := Maintain(c, g);
      && GridOk(c, g', orders, g'.queue)
      && g'.filled == g.filled
  {
    RetractKeeps(c, g, orders);
    var g1 := Retract(g, Window(c, g));
    assert Window(c, g1) == Window(c, g);
    QueueLevelsKeeps(c, g1, orders, Window(c, g));
  }

  lemma AnchorSideKeeps(c: GridConfig, g: Grid, orders: set<Key>, k: Key)
    requires GridOk(c, g, orders, g.queue) && g.anchor.Some? && g.active
    requires g.retired == {} && g.pendingClose == {} && k !in g.placed && k !in g.filled
    ensures var g' := QueueSide(c, g, k, true);
      && GridOk(c, g', orders, g'.queue)
      && g' == g.(placed := g'.placed, queue := g'.queue)
      && g.placed <= g'.placed <= g.placed + {k}
  {
    if QueueSide(c, g, k, true) != g {
      AddSideKeeps(c, g, orders, EntrySignal(c, g, k, true));
    }
  }

  /** A new session starts from nothing: the anchor pair, then the first window. */
  lemma InitKeeps(c: GridConfig, g: Grid, orders: set<Key>)
    requires GridOk(c, g, orders, []) && g.queue == [] && g.anchor.None? && g.active
    ensures var g' := InitSession(c, g);
      && GridOk(c, g', orders, g'.queue)
      && g'.filled == {}
  {
    hide QueueLevels, PlaceAnchorPair, Window, BuildLadder;
    var g0 := g.(anchor := Some(g.price), levels := BuildLadder(c.anchorGap, c.spacing, g.price));
    assert GridOk(c, g0, orders, g0.queue);
    AnchorPairKeeps(c, g0, orders);
    hide GridOk;
    QueueLevelsKeeps(c, PlaceAnchorPair(c, g0), orders, Window(c, PlaceAnchorPair(c, g0)));
  }

  /** The anchor pair is placed over nothing, and leaves nothing to retract. */
  lemma AnchorPairKeeps(c: GridConfig, g: Grid, orders: set<Key>)
    requires GridOk(c, g, orders, []) && g.queue == [] && g.anchor.Some? && g.active
    requires g.placed == {} && g.filled == {} && g.retired == {} && g.pendingClose == {}
    ensures var g' := PlaceAnchorPair(c, g);
      && GridOk(c, g', orders, g'.queue)
      && g' == g.(placed := g'.placed, queue := g'.queue)
      && Retract(g', Window(c, g')) == g'
  {
    hide GridOk, QueueSide, Window;
    var level := Cents(g.anchor.value);
    AnchorSideKeeps(c, g, orders, Key(level, Long));
    AnchorSideKeeps(c, QueueSide(c, g, Key(level, Long), true), orders, Key(level, Short));
    AnchorIsNotStale(PlaceAnchorPair(c, g), Window(c, PlaceAnchorPair(c, g)));
  }

  lemma AnchorIsNotStale(g: Grid, window: seq<int>)
    requires g.anchor.Some? && g.pendingClose == {} && forall k :: k in g.placed ==> k.level == Cents(g.anchor.value)
    ensures Retract(g, window) == g
  {
    assert Stale(g, window) == {};
  }

  /** What the strategy hands back, and the state it is left in. */
  ghost predicate Outcome(c: GridConfig, g: Grid, orders: set<Key>, s: Option<Signal>) {
    match s
    case None => GridOk(c, g, orders, []) && g.queue == []
    case Some(e) =>
      if e.Entry? then GridOk(c, g, orders, [e] + g.queue)
      else SidesOk(c, g, orders, []) && Paced(g) && g.closing && g.reason == e.reason && g.placed !! g.filled
  }

  lemma PopKeeps(c: GridConfig, g: Grid, orders: set<Key>)
    requires GridOk(c, g, orders, g.queue)
    ensures Outcome(c, PopSignal(g).0, orders, PopSignal(g).1)
    ensures PopSignal(g).0 == g.(queue := PopSignal(g).0.queue)
  {
    if g.queue != [] {
      var g' := PopSignal(g).0;
      assert [g.queue[0]] + g'.queue == g.queue;
      assert Window(c, g') == Window(c, g);
    }
  }

  lemma DecideKeeps(c: GridConfig, g: Grid, orders: set<Key>)
    requires GridOk(c, g, orders, []) && g.queue == []
    ensures Outcome(c, Decide(c, g).0, orders, Decide(c, g).1)
    ensures Decide(c, g).0.filled == g.filled
  {
    if g.active && !DailyTripped(c, g) && SessionExit(c, g).None? {
      if g.anchor.None? {
        InitKeeps(c, g, orders);
        PopKeeps(c, InitSession(c, g), orders);
      } else {
        TrimKeeps(c, g, orders);
        MaintainKeeps(c, Trim(c, g), orders);
        PopKeeps(c, Maintain(c, Trim(c, g)), orders);
      }
    } else if g.active && DailyTripped(c, g) && g.anchor.None? {
      assert Window(c, g.(active := false)) == Window(c, g);
    }
  }

  /** A new bar when nothing is being trimmed, or the same bar again. */
  ghost predicate BarFits(g: Grid, bar: Bar) {
    g.pendingClose == {} || (g.price == bar.close && g.date == bar.date)
  }

  /** A strategy that holds nothing has nothing queued. */
  lemma NothingHeldNothingQueued(c: GridConfig, g: Grid, orders: set<Key>)
    requires SidesOk(c, g, orders, g.queue)
    ensures g.queue != [] ==> g.placed != {}
  {
    if g.queue != [] {
      assert g.queue[0].key in g.placed;
    }
  }

  lemma StartBarKeeps(c: GridConfig, g: Grid, orders: set<Key>, bar: Bar)
    requires GridOk(c, g, orders, g.queue) && BarFits(g, bar)
    ensures var g' := StartBar(g, bar);
      && GridOk(c, g', orders, g'.queue) && g'.filled == g.filled && g'.queue == g.queue
      && g'.price == bar.close && g'.date == bar.date
  {
    NothingHeldNothingQueued(c, g, orders);
    if g.pendingClose != {} {
      assert StartBar(g, bar) == g;
    }
  }

  /** With something queued a call pops it. */
  lemma GeneratePops(c: GridConfig, g: Grid, bars: seq<Bar>)
    requires bars != [] && g.queue != [] && (g.active || g.closing)
    ensures var (g', s) := Generate(c, g, bars);
      var g1 := StartBar(g, bars[|bars|-1]);
      && (g', s) == PopSignal(g1)
      && g1 == g.(price := bars[|bars|-1].close, date := g1.date, dailyRealized := g1.dailyRealized,
                  active := g1.active)
      && s == Some(g.queue[0]) && g'.queue == g.queue[1..]
  {
    hide Decide;
  }

  lemma GenerateKeeps(c: GridConfig, g: Grid, orders: set<Key>, bars: seq<Bar>)
    requires bars != [] && GridOk(c, g, orders, g.queue) && BarFits(g, bars[|bars|-1])
    ensures var (g', s) := Generate(c, g, bars);
      && Outcome(c, g', orders, s) && g'.filled == g.filled
      && g'.price == bars[|bars|-1].close && g'.date == bars[|bars|-1].date
  {
    var bar := bars[|bars|-1];
    StartBarKeeps(c, g, orders, bar);
    var g1 := StartBar(g, bar);
    if g1.queue != [] {
      PopKeeps(c, g1, orders);
    } else {
      DecideKeeps(c, g1, orders);
      DecideKeepsBar(c, g1);
    }
  }

  lemma {:induction false} RetireAllFrame(g: Grid, levels: seq<int>)
    ensures var g' := RetireAll(g, levels); g' == g.(retired := g'.retired, pendingClose := g'.pendingClose)
  {
    if levels != [] {
      RetireAllFrame(g, levels[..|levels|-1]);
    }
  }

  lemma QueueSideFrame(c: GridConfig, g: Grid, k: Key, market: bool)
    ensures var g' := QueueSide(c, g, k, market); g' == g.(placed := g'.placed, queue := g'.queue)
  {
  }

  lemma QueueLevelFrame(c: GridConfig, g: Grid, level: int)
    ensures var g' := QueueLevel(c, g, level); g' == g.(placed := g'.placed, queue := g'.queue)
  {
    QueueSideFrame(c, g, Key(level, Long), false);
    QueueSideFrame(c, QueueMissing(c, g, Key(level, Long)), Key(level, Short), false);
  }

  lemma {:induction false} QueueLevelsFrame(c: GridConfig, g: Grid, levels: seq<int>)
    ensures var g' := QueueLevels(c, g, levels); g' == g.(placed := g'.placed, queue := g'.queue)
  {
    if levels != [] {
      QueueLevelsFrame(c, g, levels[..|levels|-1]);
      QueueLevelFrame(c, QueueLevels(c, g, levels[..|levels|-1]), levels[|levels|-1]);
    }
  }

  lemma TrimFrame(c: GridConfig, g: Grid)
    ensures var g' := Trim(c, g); g' == g.(retired := g'.retired, pendingClose := g'.pendingClose)
  {
    if g.anchor.Some? {
      RetireAllFrame(g, Drop(ActiveAbove(g), CapAbove(c, g)));
      RetireAllFrame(RetireAll(g, Drop(ActiveAbove(g), CapAbove(c, g))), Drop(ActiveBelow(g), CapBelow(c, g)));
    }
  }

  lemma MaintainFrame(c: GridConfig, g: Grid)
    ensures var g' := Maintain(c, g);
      g' == g.(placed := g'.placed, queue := g'.queue, pendingClose := g'.pendingClose)
  {
    if g.anchor.Some? {
      QueueLevelsFrame(c, Retract(g, Window(c, g)), Window(c, g));
    }
  }

  lemma AnchorPairFrame(c: GridConfig, g: Grid)
    ensures var g' := PlaceAnchorPair(c, g); g' == g.(placed := g'.placed, queue := g'.queue)
  {
    if g.anchor.Some? {
      var level := Cents(g.anchor.value);
      QueueSideFrame(c, g, Key(level, Long), true);
      QueueSideFrame(c, QueueSide(c, g, Key(level, Long), true), Key(level, Short), true);
    }
  }

  lemma InitFrame(c: GridConfig, g: Grid)
    ensures var g' := InitSession(c, g);
      g' == g.(anchor := Some(g.price), levels := BuildLadder(c.anchorGap, c.spacing, g.price),
               placed := g'.placed, queue := g'.queue, pendingClose := g'.pendingClose)
  {
    var g0 := g.(anchor := Some(g.price), levels := BuildLadder(c.anchorGap, c.spacing, g.price));
    AnchorPairFrame(c, g0);
    MaintainFrame(c, PlaceAnchorPair(c, g0));
  }

  /** Two states with the same bar and the same results. */
  ghost predicate SameBar(g: Grid, g': Grid) {
    && g'.price == g.price && g'.date == g.date && g'.dailyRealized == g.dailyRealized
    && g'.sessionRealized == g.sessionRealized && g'.sessionUnrealized == g.sessionUnrealized
  }

  lemma InitKeepsBar(c: GridConfig, g: Grid)
    ensures SameBar(g, PopSignal(InitSession(c, g)).0)
  {
    InitFrame(c, g);
  }

  lemma SlideKeepsBar(c: GridConfig, g: Grid)
    ensures SameBar(g, PopSignal(Maintain(c, Trim(c, g))).0)
  {
    TrimFrame(c, g);
    MaintainFrame(c, Trim(c, g));
  }

  /** Deciding leaves price, date and the day's results alone. */
  lemma DecideKeepsBar(c: GridConfig, g: Grid)
    ensures SameBar(g, Decide(c, g).0)
  {
    hide InitSession, Trim, Maintain, DailyTripped, SessionExit;
    InitKeepsBar(c, g);
    SlideKeepsBar(c, g);
  }

  // ---- One call of the strategy, one signal

  /** The invariant with a signal in hand. */
  ghost predicate Asked(c: GridConfig, w: World, s: Option<Signal>, paidIn: real) {
    Sound(w, paidIn) && Outcome(c, w.g, w.om.Keys, s)
  }

  lemma AskKeeps(rc: RunConfig, w: World, bars: seq<Bar>, paidIn: real)
    requires bars != [] && Agreed(rc.grid, w, w.g.queue, paidIn) && BarFits(w.g, bars[|bars|-1])
    ensures var (w', s) := Ask(rc, w, bars);
      && Asked(rc.grid, w', s, paidIn)
      && w'.g.price == bars[|bars|-1].close && w'.g.date == bars[|bars|-1].date
  {
    GenerateKeeps(rc.grid, w.g, w.om.Keys, bars);
  }

  lemma QueuedBehind(s: Signal, rest: seq<Signal>)
    ensures forall k :: Queued([s] + rest, k) && (s.Entry? ==> k != s.key) ==> Queued(rest, k)
  {
  }

  lemma QueueBehind(g: Grid, orders: set<Key>, s: Signal, rest: seq<Signal>)
    requires QueueOk(g, orders, [s] + rest)
    ensures s.Entry? && s.key in g.placed && s.key !in orders
    ensures s.key !in g.pendingClose && s.key.level !in g.retired
    ensures QueueOk(g, orders, rest) && forall i :: 0 <= i < |rest| ==> rest[i].key != s.key
  {
    var sigs := [s] + rest;
    assert sigs[0] == s;
    forall i | 0 <= i < |rest| ensures rest[i] == sigs[i + 1] && rest[i].Entry? && rest[i].key != s.key {
      assert sigs[0].key != sigs[i + 1].key;
    }
  }

  /** A resting order moves its key from the waiting signals to the broker's list. */
  lemma RestingKeepsSides(c: GridConfig, g: Grid, orders: set<Key>, s: Signal)
    requires GridOk(c, g, orders, [s] + g.queue)
    ensures s.Entry? && s.key in g.placed && s.key !in orders
    ensures GridOk(c, g, orders + {s.key}, g.queue)
  {
    QueueBehind(g, orders, s, g.queue);
    QueuedBehind(s, g.queue);
  }

  lemma RestingIsSound(w: World, s: Signal, paidIn: real)
    requires Sound(w, paidIn) && s.Entry? && s.key !in w.om
    ensures Sound(PlaceResting(w, s), paidIn)
    ensures PlaceResting(w, s).om.Keys == w.om.Keys + {s.key}
  {
    var w' := PlaceResting(w, s);
    var p := PendingIsListed(w.b, OrderSideOf(s.key.side), s.units, s.limitPrice, s.stopLoss,
                             s.orderType == OrderType.Stop, s.key);
    ListedKeeps(w.b, w'.b, p, paidIn);
    InverseAdd(w.om, Tickets(w.b.pending), s.key, p.id);
    assert w'.om.Keys == w.om.Keys + {s.key};
  }

  lemma RestingKeeps(c: GridConfig, w: World, s: Signal, paidIn: real)
    requires Sound(w, paidIn) && GridOk(c, w.g, w.om.Keys, [s] + w.g.queue)
    ensures s.Entry?
    ensures Agreed(c, PlaceResting(w, s), w.g.queue, paidIn) && PlaceResting(w, s).g == w.g
  {
    RestingKeepsSides(c, w.g, w.om.Keys, s);
    RestingIsSound(w, s, paidIn);
    hide Sound, Stamp;
  }

  /** A market fill moves its key from the waiting signals to the filled sides. */
  lemma MarketKeepsSides(c: GridConfig, g: Grid, orders: set<Key>, s: Signal)
    requires GridOk(c, g, orders, [s] + g.queue)
    ensures s.Entry? && s.key !in g.filled
    ensures GridOk(c, ReportFill(g, s.key), orders, g.queue)
  {
    QueueBehind(g, orders, s, g.queue);
    QueuedBehind(s, g.queue);
    assert Window(c, ReportFill(g, s.key)) == Window(c, g);
  }

  lemma MarketIsSound(rc: RunConfig, w: World, bar: Bar, s: Signal, paidIn: real)
    requires Sound(w, paidIn) && s.Entry? && s.key !in w.g.filled
    ensures Sound(PlaceAtMarket(rc, w, bar, s), paidIn)
  {
    hide FillMarket, Stamp;
    var w' := PlaceAtMarket(rc, w, bar, s);
    var t := MarketFillOpens(rc.broker, w.b, bar, OrderSideOf(s.key.side), s.units, s.stopLoss, s.key);
    OpenedKeeps(rc.broker, w.b, w'.b, t, paidIn);
    InverseAdd(w.tm, Tickets(w.b.openTrades), s.key, t.id);
    assert w'.tm.Keys == w.tm.Keys + {s.key};
  }

  lemma MarketKeeps(rc: RunConfig, w: World, bar: Bar, s: Signal, paidIn: real)
    requires Sound(w, paidIn) && GridOk(rc.grid, w.g, w.om.Keys, [s] + w.g.queue)
    ensures s.Entry?
    ensures var w' := PlaceAtMarket(rc, w, bar, s);
      Agreed(rc.grid, w', w.g.queue, paidIn) && w'.g == ReportFill(w.g, s.key)
  {
    MarketKeepsSides(rc.grid, w.g, w.om.Keys, s);
    MarketIsSound(rc, w, bar, s, paidIn);
    hide Sound, SidesOk, SessionOk, FillMarket, Stamp, ReportFill;
  }

  // ---- Closing a live trade

  /** A close at the broker that the runner banks under the trade's own key. */
  lemma CloseKeepsSound(w: World, b1: Broker, t: OpenTrade, info: ClosedTrade, paidIn: real)
    requires Sound(w, paidIn) && t in w.b.openTrades && Realized(w.b, b1, t, info)
    ensures t.gridKey.Some? && t.gridKey.value in w.tm && w.tm[t.gridKey.value] == t.id
    ensures Bank(w.(b := b1), t.id, info.pnl)
         == World(ReportClosed(w.g, t.gridKey.value, info.pnl), b1, w.tm - {t.gridKey.value}, w.om, w.pnls + [info.pnl])
    ensures Sound(Bank(w.(b := b1), t.id, info.pnl), paidIn)
  {
    RealizedKeeps(w.b, b1, t, info, paidIn);
    TicketsAre(w.b.openTrades);
    BankKeeps(w.(b := b1), Tickets(w.b.openTrades), Tickets(w.b.pending), t.id, info.pnl);
  }

  lemma CloseAndBankKeeps(rc: RunConfig, w: World, bar: Bar, t: OpenTrade, paidIn: real) returns (pnl: real)
    requires Sound(w, paidIn) && t in w.b.openTrades
    ensures t.gridKey.Some? && t.gridKey.value in w.tm && w.tm[t.gridKey.value] == t.id
    ensures var w' := CloseAndBank(rc, w, bar, t.id);
      && Sound(w', paidIn)
      && w'.g == ReportClosed(w.g, t.gridKey.value, pnl) && w'.om == w.om
      && w'.tm == w.tm - {t.gridKey.value}
      && w'.b.pending == w.b.pending && w'.b.openTrades == RemoveFirst(w.b.openTrades, t)
  {
    var info := CloseTradeRealizes(rc.broker, w.b, bar, t);
    var b1 := CloseTrade(rc.broker, w.b, bar, t.id).value;
    LookupLatest(w.b.closed, info);
    CloseKeepsSound(w, b1, t, info, paidIn);
    pnl := info.pnl;
  }

  // ---- Closing everything

  /** The state after some trades were closed, with `left` still open and no orders. */
  ghost predicate Closing(w: World, g: Grid, left: seq<OpenTrade>, paidIn: real) {
    && Sound(w, paidIn) && w.om == map[] && w.b.pending == [] && w.b.openTrades == left
    && w.g.anchor == g.anchor && w.g.active == g.active && w.g.price == g.price && w.g.date == g.date
  }

  lemma CloseFirst(rc: RunConfig, w: World, g: Grid, bar: Bar, left: seq<OpenTrade>, paidIn: real)
    requires left != [] && Closing(w, g, left, paidIn)
    ensures Closing(CloseAndBank(rc, w, bar, left[0].id), g, left[1..], paidIn)
  {
    var pnl := CloseAndBankKeeps(rc, w, bar, left[0], paidIn);
    assert RemoveFirst(left, left[0]) == left[1..];
  }

  lemma {:induction false} CloseEachKeeps(rc: RunConfig, w: World, g: Grid, bar: Bar, trades: seq<OpenTrade>, n: nat,
                                          paidIn: real)
    requires n <= |trades| && Closing(w, g, trades, paidIn)
    ensures Closing(CloseEach(rc, w, bar, trades[..n]), g, trades[n..], paidIn)
  {
    if n == 0 {
      assert trades[..n] == [] && trades[n..] == trades;
    } else {
      hide CloseAndBank, Closing;
      CloseEachKeeps(rc, w, g, bar, trades, n - 1, paidIn);
      assert trades[..n][..n-1] == trades[..n-1] && trades[n-1..][1..] == trades[n..];
      CloseFirst(rc, CloseEach(rc, w, bar, trades[..n-1]), g, bar, trades[n-1..], paidIn);
    }
  }

  lemma CancelKeeps(w: World, paidIn: real)
    requires Sound(w, paidIn)
    ensures Closing(CancelEverything(w), w.g, w.b.openTrades, paidIn)
  {
  }

  /** After the liquidation the books are empty and the strategy holds nothing. */
  lemma FlatKeeps(c: GridConfig, w: World, g: Grid, paidIn: real)
    requires Closing(w, g, [], paidIn) && g.anchor.Some?
    ensures var w' := w.(tm := map[], g := NotifyComplete(w.g));
      && Agreed(c, w', [], paidIn)
      && w'.g.queue == [] && w'.g.pendingClose == {} && w'.g.sessionUnrealized == 0.0
      && w'.g.price == g.price && w'.g.date == g.date && w'.g.active == g.active
      && (g.active ==> w'.g.anchor.None?)
      && w'.b.openTrades == [] && w'.b.pending == []
  {
  }

  lemma CloseAllKeeps(rc: RunConfig, w: World, bar: Bar, paidIn: real)
    requires Sound(w, paidIn) && w.g.anchor.Some?
    ensures var w' := CloseAllTrades(rc, w, bar);
      && Agreed(rc.grid, w', [], paidIn)
      && w'.g.queue == [] && w'.g.pendingClose == {} && w'.g.sessionUnrealized == 0.0
      && w'.g.price == w.g.price && w'.g.date == w.g.date && w'.g.active == w.g.active
      && (w.g.active ==> w'.g.anchor.None?)
      && w'.b.openTrades == [] && w'.b.pending == []
  {
    var trades := w.b.openTrades;
    CancelKeeps(w, paidIn);
    CloseEachKeeps(rc, CancelEverything(w), w.g, bar, trades, |trades|, paidIn);
    assert trades[..|trades|] == trades && trades[|trades|..] == [];
    FlatKeeps(rc.grid, CloseEach(rc, CancelEverything(w), bar, trades), w.g, paidIn);
  }

  lemma ProcessKeeps(rc: RunConfig, w: World, bar: Bar, s: Signal, paidIn: real)
    requires Asked(rc.grid, w, Some(s), paidIn)
    requires w.g.price == bar.close && w.g.date == bar.date
    ensures var w' := ProcessSignal(rc, w, bar, s);
      && Agreed(rc.grid, w', w'.g.queue, paidIn)
      && w'.g.price == bar.close && w'.g.date == bar.date
  {
    if s.CloseAll? {
      CloseAllKeeps(rc, w, bar, paidIn);
    } else if s.orderType == OrderType.Market {
      MarketKeeps(rc, w, bar, s, paidIn);
    } else {
      RestingKeeps(rc.grid, w, s, paidIn);
    }
  }

  lemma DrainStepKeeps(rc: RunConfig, w: World, bars: seq<Bar>, s: Signal, paidIn: real)
    requires bars != [] && Asked(rc.grid, w, Some(s), paidIn)
    requires w.g.price == bars[|bars|-1].close && w.g.date == bars[|bars|-1].date
    ensures var (w', s') := Ask(rc, ProcessSignal(rc, w, bars[|bars|-1], s), bars);
      && Asked(rc.grid, w', s', paidIn)
      && w'.g.price == bars[|bars|-1].close && w'.g.date == bars[|bars|-1].date
  {
    ProcessKeeps(rc, w, bars[|bars|-1], s, paidIn);
    AskKeeps(rc, ProcessSignal(rc, w, bars[|bars|-1], s), bars, paidIn);
  }

  /** A drain that the cap does not cut short ends in agreement, with nothing queued. */
  lemma {:induction false} DrainKeeps(rc: RunConfig, w: World, bars: seq<Bar>, s: Option<Signal>, count: nat,
                                      paidIn: real)
    requires bars != [] && Asked(rc.grid, w, s, paidIn)
    requires w.g.price == bars[|bars|-1].close && w.g.date == bars[|bars|-1].date
    ensures !DrainFrom(rc, w, bars, s, count).dropped ==>
      Asked(rc.grid, DrainFrom(rc, w, bars, s, count).w, None, paidIn)
    decreases MAX_SIGNAL_DRAIN - count
  {
    hide DrainFrom, Ask, ProcessSignal, Asked;
    DrainUnfolds(rc, w, bars, s, count);
    if s.Some? && count < MAX_SIGNAL_DRAIN {
      DrainStepKeeps(rc, w, bars, s.value, paidIn);
      var (w2, s2) := Ask(rc, ProcessSignal(rc, w, bars[|bars|-1], s.value), bars);
      DrainKeeps(rc, w2, bars, s2, count + 1, paidIn);
    }
  }
}
