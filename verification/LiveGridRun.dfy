/** The sliding grid under the live engine, over every run: its orders and trades are the strategy's sides. */
module LiveGridRun {
  import opened Market
  import opened Rounding
  import opened GridModel
  import opened GridTracking
  import opened Quiescence
  import opened LiveGridModel
  import opened LiveMatching
  import opened LiveLedger
  import opened LiveGrid
  import E = EngineModel

  // ---- Handling one entry

  /** A broker that names its trades. */
  predicate NamesTrade(a: E.OrderAnswer) {
    a.Accepted? ==> a.id != E.NO_ID
  }

  /** A signal that was dropped leaves its side placed. */
  lemma ForgetKeeps(d: E.Desk, g: Grid, hand: set<Key>, names: bool, k: Key, d': E.Desk)
    requires Live(d, g, hand, names)
    requires d'.orders == d.orders && d'.trades == d.trades && d'.meta == d.meta
    ensures Live(d', g, hand - {k}, names)
  {
  }

  lemma RestingKeeps(d: E.Desk, g: Grid, hand: set<Key>, names: bool, k: Key, d': E.Desk)
    requires Live(d, g, hand, names) && k in hand
    requires d'.orders.Keys == d.orders.Keys + {k} && d'.trades == d.trades && NoLegs(d')
    ensures Live(d', g, hand - {k}, names)
  {
    assert d'.orders.Keys + (hand - {k}) == d.orders.Keys + hand;
  }

  lemma MarketKeeps(c: E.EngineConfig, d: E.Desk, g: Grid, hand: set<Key>, names: bool, s: Signal,
                    answer: E.OrderAnswer)
    requires Live(d, g, hand, names) && s.Entry? && s.key in hand && (names ==> NamesTrade(answer))
    ensures var d' := E.PlaceMarket(c, d, s, answer);
      d.trace <= d'.trace && Live(d', HearNew(g, d, d'), hand - {s.key}, names)
  {
    hide Live, HearNew;
    var d' := E.PlaceMarket(c, d, s, answer);
    var place := d'.trace[|d.trace|];
    LiveHasNoLegs(d, g, hand, names);
    HandIsApart(d, g, hand, names, s.key);
    match answer
    case Refused =>
      HearLast(g, d, d', [place], E.TellRejected(s.key));
      RejectedKeeps(d, g, hand, names, s.key, d');
    case Accepted(id, price, _) =>
      HearLast(g, d, d', [place], E.TellFilled(s.key, price));
      FilledKeeps(d, g, hand, names, s.key, d');
  }

  lemma HandIsApart(d: E.Desk, g: Grid, hand: set<Key>, names: bool, k: Key)
    requires Live(d, g, hand, names) && k in hand
    ensures d.orders.Keys - {k} == d.orders.Keys && k !in d.trades && k !in d.orders
  {
  }

  /** What placing a resting order without an opposite leg does to the desk. */
  lemma OrderOutcome(c: E.EngineConfig, d: E.Desk, s: Signal, answer: E.OrderAnswer, leg: E.OrderAnswer)
    returns (place: E.Event)
    requires s.Entry? && NoLegs(d)
    ensures var d' := E.PlaceResting(c, d, E.Wanted(s, None), answer, leg);
      && Silent(place) && NoLegs(d')
      && match answer
         case Refused =>
           d'.trace == d.trace + [place] + [E.TellRejected(s.key)] && d'.orders == d.orders && d'.trades == d.trades
         case Accepted(id, price, immediate) =>
           if immediate then
             d'.trace == d.trace + [place] + [E.TellFilled(s.key, price)]
             && d'.orders == d.orders && d'.trades.Keys == d.trades.Keys + {s.key}
           else
             && d'.trace == d.trace + [place] && d'.trades == d.trades
             && if id == E.NO_ID then d'.orders == d.orders && d'.meta == d.meta
                else d'.orders.Keys == d.orders.Keys + {s.key}
  {
    place := E.PlaceResting(c, d, E.Wanted(s, None), answer, leg).trace[|d.trace|];
    hide E.Capped, Round5;
  }

  lemma OrderKeeps(c: E.EngineConfig, d: E.Desk, g: Grid, hand: set<Key>, names: bool, s: Signal,
                   answer: E.OrderAnswer, leg: E.OrderAnswer)
    requires Live(d, g, hand, names) && s.Entry? && s.key in hand
    ensures var d' := E.PlaceResting(c, d, E.Wanted(s, None), answer, leg);
      d.trace <= d'.trace && Live(d', HearNew(g, d, d'), hand - {s.key}, names)
  {
    hide Live, HearNew, E.PlaceResting, NoLegs, Silent;
    var d' := E.PlaceResting(c, d, E.Wanted(s, None), answer, leg);
    LiveHasNoLegs(d, g, hand, names);
    HandIsApart(d, g, hand, names, s.key);
    var place := OrderOutcome(c, d, s, answer, leg);
    match answer
    case Refused =>
      HearLast(g, d, d', [place], E.TellRejected(s.key));
      RejectedKeeps(d, g, hand, names, s.key, d');
    case Accepted(id, price, immediate) =>
      if immediate {
        HearLast(g, d, d', [place], E.TellFilled(s.key, price));
        FilledKeeps(d, g, hand, names, s.key, d');
      } else {
        HearOnly(g, d, d', [place]);
        if id == E.NO_ID {
          ForgetKeeps(d, g, hand, names, s.key, d');
        } else {
          RestingKeeps(d, g, hand, names, s.key, d');
        }
      }
  }

  lemma EntryKeeps(c: E.EngineConfig, d: E.Desk, g: Grid, hand: set<Key>, names: bool, s: Signal, a: E.SignalAnswers)
    requires Live(d, g, hand, names) && s.Entry? && s.key in hand && (names ==> NamesTrade(a.answer))
    ensures var d' := E.ProcessEntry(c, d, E.Wanted(s, None), a);
      d.trace <= d'.trace && Live(d', HearNew(g, d, d'), hand - {s.key}, names)
  {
    hide Live, HearNew, E.PlaceMarket, E.PlaceResting, E.StopOnWrongSide;
    var d' := E.ProcessEntry(c, d, E.Wanted(s, None), a);
    if c.maxOpenTrades > 0 && a.openCount >= c.maxOpenTrades {
      HearNothing(g, d, d);
      ForgetKeeps(d, g, hand, names, s.key, d);
    } else if !a.approved || E.StopOnWrongSide(s, a.close) {
      HearOne(g, d, d', E.TellRejected(s.key));
      LiveHasNoLegs(d, g, hand, names);
      HandIsApart(d, g, hand, names, s.key);
      RejectedKeeps(d, g, hand, names, s.key, d');
    } else if s.orderType == OrderType.Market {
      MarketKeeps(c, d, g, hand, names, s, a.answer);
    } else {
      OrderKeeps(c, d, g, hand, names, s, a.answer, a.leg);
    }
  }

  // ---- The close-all

  lemma {:induction false} ClosesAreSilent(d: E.Desk, open: seq<E.LiveTrade>, holders: map<nat, Key>,
                                           close: nat -> E.CloseAnswer) returns (events: seq<E.Event>)
    ensures var d' := E.CloseEach(d, open, holders, close);
      && d'.trace == d.trace + events && (forall e :: e in events ==> Silent(e))
      && d'.orders == d.orders && d'.trades == d.trades && d'.meta == d.meta
  {
    if open == [] {
      events := [];
    } else {
      var first := ClosesAreSilent(d, open[..|open|-1], holders, close);
      events := first + [E.CloseTrade(open[|open|-1].id)];
    }
  }

  /** A close-all ends with completion told over cleared maps, or tells nothing and leaves the maps. */
  lemma AttemptTells(c: E.EngineConfig, d: E.Desk, b: E.Breaker, a: E.Attempt)
    returns (events: seq<E.Event>, done: bool)
    ensures forall e :: e in events ==> Silent(e)
    ensures var d' := E.DeskAfterAttempt(c, d, b, a);
      if done then
        d'.trace == d.trace + events + [E.TellComplete] && d'.orders == map[] && d'.trades == map[] && d'.meta == map[]
      else
        d'.trace == d.trace + events && d'.orders == d.orders && d'.trades == d.trades && d'.meta == d.meta
  {
    hide E.FailedCloses, E.CloseEach, E.Holders;
    var outcome := E.OutcomeOf(b, a);
    done := outcome in {E.NothingOpen, E.Flat};
    if outcome in {E.Broken, E.Waiting} {
      events := [];
    } else {
      events := [E.CancelAll, E.ReadTrades(E.CountOf(a.open))];
      var d1 := E.Log(E.Log(d, E.CancelAll), E.ReadTrades(E.CountOf(a.open)));
      assert d1.trace == d.trace + events;
      if a.open.Some? && outcome != E.NothingOpen {
        var closes := ClosesAreSilent(d1, a.open.value, E.Holders(d.trades, c.order(d.trades.Keys)), a.close);
        var last := if outcome == E.SomeFailed then [] else [E.ReadTrades(a.remaining)];
        var read := if outcome == E.Flat && c.hasSummary then [E.ReadSummary] else [];
        var d2 := E.CloseEach(d1, a.open.value, E.Holders(d.trades, c.order(d.trades.Keys)), a.close);
        assert d2.trace == d.trace + (events + closes);
        events := events + closes + last + read;
        assert d.trace + events == d2.trace + last + read;
      }
    }
  }

  lemma CompletionKeeps(d: E.Desk, g: Grid, names: bool)
    requires d.orders == map[] && d.trades == map[] && d.meta == map[]
    ensures Live(d, NotifyComplete(g), {}, names)
  {
  }

  lemma AttemptKeeps(c: E.EngineConfig, d: E.Desk, g: Grid, names: bool, b: E.Breaker, a: E.Attempt)
    requires Live(d, g, {}, names)
    ensures var d' := E.DeskAfterAttempt(c, d, b, a);
      d.trace <= d'.trace && Live(d', HearNew(g, d, d'), {}, names)
  {
    hide Live, HearNew, E.DeskAfterAttempt, NotifyComplete;
    var d' := E.DeskAfterAttempt(c, d, b, a);
    var events, done := AttemptTells(c, d, b, a);
    if done {
      HearLast(g, d, d', events, E.TellComplete);
      CompletionKeeps(d', g, names);
    } else {
      HearOnly(g, d, d', events);
      SameBooks(d, g, {}, names, d');
    }
  }

  // ---- All signals of a cycle

  ghost function EntryKeys(sigs: seq<Signal>): set<Key> {
    set s | s in sigs && s.Entry? :: s.key
  }

  /** Entries for different keys, and a close-all at most as the last. */
  ghost predicate HandOk(sigs: seq<Signal>) {
    && Drained(sigs)
    && forall i, j :: 0 <= i < j < |sigs| && sigs[i].Entry? && sigs[j].Entry? ==> sigs[i].key != sigs[j].key
  }

  lemma HandSplit(sigs: seq<Signal>, n: nat)
    requires HandOk(sigs) && n < |sigs|
    ensures sigs[n].CloseAll? ==> EntryKeys(sigs[n..]) == {} && EntryKeys(sigs[n + 1..]) == {}
    ensures sigs[n].Entry? ==>
      sigs[n].key in EntryKeys(sigs[n..]) && EntryKeys(sigs[n + 1..]) == EntryKeys(sigs[n..]) - {sigs[n].key}
  {
    assert sigs[n..] == [sigs[n]] + sigs[n + 1..];
    assert sigs[n] in sigs[n..];
    forall k | k in EntryKeys(sigs[n + 1..]) ensures k in EntryKeys(sigs[n..]) && (sigs[n].Entry? ==>
          k != sigs[n].key) {
      var i :| n + 1 <= i < |sigs| && sigs[i].Entry? && sigs[i].key == k;
      assert sigs[i] in sigs[n..];
    }
  }

  lemma HandleKeeps(c: E.EngineConfig, w: Pair, sigs: seq<Signal>, n: nat, names: bool, a: E.SignalAnswers)
    requires HandOk(sigs) && n < |sigs| && Live(w.e.desk, w.g, EntryKeys(sigs[n..]), names)
    requires names ==> NamesTrade(a.answer)
    ensures var w' := HandleOne(c, w, sigs[n], a); Live(w'.e.desk, w'.g, EntryKeys(sigs[n + 1..]), names)
  {
    hide Live, HearNew, EntryKeys, HandOk, E.ProcessEntry, E.DeskAfterAttempt, E.AfterAttempt, E.MoneyAfterAttempt;
    HandSplit(sigs, n);
    if sigs[n].CloseAll? {
      AttemptKeeps(c, w.e.desk, w.g, names, w.e.breaker, a.attempt);
    } else {
      EntryKeeps(c, w.e.desk, w.g, EntryKeys(sigs[n..]), names, sigs[n], a);
    }
  }

  lemma {:induction false} HandlingKeeps(c: E.EngineConfig, w: Pair, sigs: seq<Signal>, y: GridCycle, n: nat,
                                         names: bool)
    requires y.bars != [] && y.openCount.Some? && n <= |sigs|
    requires HandOk(sigs) && Live(w.e.desk, w.g, EntryKeys(sigs), names)
    requires names ==> forall i :: NamesTrade(y.handling(i).answer)
    ensures var w' := HandleAll(c, w, sigs[..n], y); Live(w'.e.desk, w'.g, EntryKeys(sigs[n..]), names)
  {
    hide Live, HandleOne, EntryKeys, HandOk;
    if n == 0 {
      assert sigs[0..] == sigs && sigs[..0] == [];
    } else {
      HandlingKeeps(c, w, sigs, y, n - 1, names);
      assert sigs[..n][..n-1] == sigs[..n-1];
      HandleKeeps(c, HandleAll(c, w, sigs[..n-1], y), sigs, n - 1, names, HandlingAt(y, n - 1));
    }
  }

  // ---- Asking

  /** What asking leaves: the sides of the entries in hand count as ordered. */
  ghost predicate Asked(g: Grid, g': Grid, sigs: seq<Signal>, orders: set<Key>) {
    && HandOk(sigs) && Tracks(g', orders + EntryKeys(sigs)) && EntryKeys(sigs) !! orders && g'.filled == g.filled
  }

  lemma OneMoreAsked(g: Grid, g1: Grid, g2: Grid, s: Signal, rest: seq<Signal>, orders: set<Key>)
    requires s.Entry? && s.key !in orders && g1.filled == g.filled && Asked(g1, g2, rest, orders + {s.key})
    ensures Asked(g, g2, [s] + rest, orders)
  {
    hide Tracks;
    var sigs := [s] + rest;
    assert EntryKeys(sigs) == {s.key} + EntryKeys(rest) by {
      assert s in sigs;
      assert forall x :: x in rest ==> x in sigs;
    }
    assert orders + EntryKeys(sigs) == orders + {s.key} + EntryKeys(rest);
    forall i, j | 0 <= i < j < |sigs| && sigs[i].Entry? && sigs[j].Entry? ensures sigs[i].key != sigs[j].key {
      assert sigs[j] == rest[j - 1] && rest[j - 1] in rest && sigs[j].key in EntryKeys(rest);
      assert i > 0 ==> sigs[i] == rest[i - 1];
    }
  }

  lemma NothingAsked(g: Grid, g': Grid, sigs: seq<Signal>, orders: set<Key>)
    requires Tracks(g', orders) && g'.filled == g.filled && (sigs == [] || (|sigs| == 1 && sigs[0].CloseAll?))
    ensures Asked(g, g', sigs, orders)
  {
    assert EntryKeys(sigs) == {};
    assert orders + {} == orders;
  }

  /** If `n` calls get to decide and slide the window, every order that is to be cancelled is out of reach by then. */
  ghost predicate AsksClear(gc: GridConfig, g: Grid, bars: seq<Bar>, n: nat, orders: set<Key>) {
    bars != [] && |g.queue| < n ==> SlidesClear(gc, StartBar(g, bars[|bars|-1]), orders)
  }

  lemma ClearAgain(gc: GridConfig, g: Grid, bars: seq<Bar>, n: nat, orders: set<Key>)
    requires bars != [] && n > 0 && Tracks(g, orders) && AsksClear(gc, g, bars, n, orders)
    ensures var (g1, s) := Generate(gc, g, bars);
      Answered(g1, orders, s) && g1.filled == g.filled && AsksClear(gc, g1, bars, n - 1, Ordered(orders, s))
  {
    hide Tracks, Answered, Generate, StartBar, SlidesClear;
    GenerateTracks(gc, g, orders, bars);
    SameBarAgain(Generate(gc, g, bars).0, bars[|bars|-1]);
  }

  lemma {:induction false} AsksTrack(gc: GridConfig, g: Grid, bars: seq<Bar>, n: nat, orders: set<Key>)
    requires bars != [] && Tracks(g, orders) && AsksClear(gc, g, bars, n, orders)
    ensures var (g', sigs) := Asks(gc, g, bars, n); Asked(g, g', sigs, orders)
    decreases n
  {
    hide Tracks, Asked, Generate, AsksClear;
    if n == 0 {
      NothingAsked(g, g, [], orders);
    } else {
      var (g1, s) := Generate(gc, g, bars);
      ClearAgain(gc, g, bars, n, orders);
      if s.None? {
        NothingAsked(g, g1, [], orders);
      } else if s.value.CloseAll? {
        NothingAsked(g, g1, [s.value], orders);
      } else {
        AsksTrack(gc, g1, bars, n - 1, orders + {s.value.key});
        var (g2, rest) := Asks(gc, g1, bars, n - 1);
        OneMoreAsked(g, g1, g2, s.value, rest, orders);
      }
    }
  }

  // ---- The cycle

  /** Two states that differ in their results only. */
  ghost predicate SameSides(g: Grid, g': Grid) {
    g' == g.(sessionRealized := g'.sessionRealized, sessionUnrealized := g'.sessionUnrealized,
             dailyRealized := g'.dailyRealized, authoritative := g'.authoritative)
  }

  lemma StartHears(c: E.EngineConfig, e: E.Engine, y: E.CycleAnswers, g: Grid)
    ensures var d, d' := e.desk, E.StartCycle(c, e, y).0.desk;
      && SameSides(g, HearNew(g, d, d')) && d'.orders == d.orders && d'.trades == d.trades && d'.meta == d.meta
  {
    hide HearNew;
    var d, d' := e.desk, E.StartCycle(c, e, y).0.desk;
    if y.close.None? {
      HearNothing(g, d, d');
    } else if !c.hasSummary {
      HearOne(g, d, d', E.TellUnrealized(0.0));
    } else if y.summary.None? {
      HearOne(g, d, d', E.ReadSummary);
    } else {
      PnlHeard(g, d, E.Anchored(e.money, y.summary.value.balance, y.today), y.summary.value);
    }
  }

  lemma PnlHeard(g: Grid, d: E.Desk, m: E.Money, s: E.Summary)
    requires m.sessionStart.Some? && m.dayStart.Some?
    ensures SameSides(g, HearNew(g, d, E.PnlTold(d, m, s)))
  {
    hide HearNew;
    var d2, d' := E.Log(E.Log(d, E.ReadSummary), E.TellUnrealized(s.unrealized)), E.PnlTold(d, m, s);
    HearLast(g, d, d2, [E.ReadSummary], E.TellUnrealized(s.unrealized));
    HearOne(HearNew(g, d, d2), d2, d', d'.trace[|d2.trace|]);
    HearSplit(g, d, d2, d');
  }

  lemma StartKeeps(c: E.EngineConfig, w: Pair, y: E.CycleAnswers, names: bool)
    requires Live(w.e.desk, w.g, {}, names)
    ensures var e1 := E.StartCycle(c, w.e, y).0;
      var g1 := HearNew(w.g, w.e.desk, e1.desk);
      && Live(e1.desk, g1, {}, names) && Tracks(g1, e1.desk.orders.Keys)
      && e1.desk.orders == w.e.desk.orders && g1.placed == w.g.placed
  {
    hide HearNew, E.StartCycle;
    StartHears(c, w.e, y, w.g);
    var e1 := E.StartCycle(c, w.e, y).0;
    assert e1.desk.orders.Keys + {} == e1.desk.orders.Keys;
  }

  lemma AskedIsLive(d: E.Desk, g: Grid, g': Grid, sigs: seq<Signal>, names: bool)
    requires Live(d, g, {}, names) && Asked(g, g', sigs, d.orders.Keys)
    ensures Live(d, g', EntryKeys(sigs), names)
  {
    hide Tracks, EntryKeys;
  }

  lemma DropAll(d: E.Desk, g: Grid, hand: set<Key>, names: bool)
    requires Live(d, g, hand, names)
    ensures Live(d, g, {}, names)
  {
  }

  /** What the strategy has been told when a cycle comes to ask it. */
  function ToldAt(c: E.EngineConfig, gc: GridConfig, w: Pair, y: GridCycle): Grid {
    HearNew(w.g, w.e.desk, E.StartCycle(c, w.e, StartOf(c, gc, w, y)).0.desk)
  }

  /** Should the cycle slide the window, it finds every order that is to be cancelled out of reach. */
  ghost predicate CycleIsClear(c: E.EngineConfig, gc: GridConfig, w: Pair, y: GridCycle) {
    E.StartCycle(c, w.e, StartOf(c, gc, w, y)).1 ==>
      AsksClear(gc, ToldAt(c, gc, w, y), y.bars, E.MAX_DRAIN + 1, w.e.desk.orders.Keys)
  }

  lemma CycleKeeps(c: E.EngineConfig, gc: GridConfig, w: Pair, y: GridCycle, names: bool)
    requires Live(w.e.desk, w.g, {}, names) && CycleIsClear(c, gc, w, y)
    requires names ==> forall i :: NamesTrade(y.handling(i).answer)
    ensures var w' := CyclePair(c, gc, w, y); Live(w'.e.desk, w'.g, {}, names)
  {
    hide Live, HearNew, StartOf, E.StartCycle, Asks, HandleAll, Tracks, EntryKeys, AsksClear;
    var start := StartOf(c, gc, w, y);
    var (e1, goes) := E.StartCycle(c, w.e, start);
    var g1 := HearNew(w.g, w.e.desk, e1.desk);
    StartKeeps(c, w, start, names);
    if goes {
      StartCloses(c, gc, w, y);
      var (g2, sigs) := Asks(gc, g1, y.bars, E.MAX_DRAIN + 1);
      AsksTrack(gc, g1, y.bars, E.MAX_DRAIN + 1, e1.desk.orders.Keys);
      AskedIsLive(e1.desk, g1, g2, sigs, names);
      if y.openCount.None? {
        DropAll(e1.desk, g2, EntryKeys(sigs), names);
      } else {
        HandlingKeeps(c, Pair(e1, g2), sigs, y, |sigs|, names);
        assert sigs[..|sigs|] == sigs && sigs[|sigs|..] == [];
        NoKeys();
      }
    }
  }

  lemma NoKeys()
    ensures EntryKeys([]) == {}
  {
  }

  // ---- Runs

  /** The cycle of a turn, if it has one, slides clear. */
  ghost predicate TurnIsClear(c: E.EngineConfig, gc: GridConfig, w: Pair, t: GridTurn) {
    w.e.breaker.running && t.cycle.Some? ==> CycleIsClear(c, gc, PollPair(c, w, t.poll), t.cycle.value)
  }

  /** So does the cycle of turn `m` of a run from `w`. */
  ghost predicate ClearAt(c: E.EngineConfig, gc: GridConfig, w: Pair, turns: seq<GridTurn>, m: nat)
    requires m < |turns|
  {
    TurnIsClear(c, gc, LoopPair(c, gc, w, turns[..m]), turns[m])
  }

  ghost predicate AlwaysClear(c: E.EngineConfig, gc: GridConfig, w: Pair, turns: seq<GridTurn>) {
    forall m: nat :: m < |turns| ==> ClearAt(c, gc, w, turns, m)
  }

  lemma ClearSplit(c: E.EngineConfig, gc: GridConfig, w: Pair, turns: seq<GridTurn>)
    requires turns != []
    ensures AlwaysClear(c, gc, w, turns) <==>
      AlwaysClear(c, gc, w, turns[..|turns|-1]) && ClearAt(c, gc, w, turns, |turns| - 1)
  {
    hide LoopPair, TurnIsClear;
    var init := turns[..|turns|-1];
    forall m: nat | m < |init| ensures ClearAt(c, gc, w, init, m) == ClearAt(c, gc, w, turns, m) {
      assert init[..m] == turns[..m];
    }
    if AlwaysClear(c, gc, w, init) && ClearAt(c, gc, w, turns, |init|) {
      forall m: nat | m < |turns| ensures ClearAt(c, gc, w, turns, m) {
        assert m < |init| ==> ClearAt(c, gc, w, init, m);
      }
    }
  }

  /** A cycle comes only after a poll that could read the trades. */
  predicate ReadsFirst(t: GridTurn) {
    t.cycle.Some? ==> t.poll.open.Some?
  }

  ghost predicate NamesTrades(t: GridTurn) {
    t.cycle.Some? ==> forall i :: NamesTrade(t.cycle.value.handling(i).answer)
  }

  lemma TurnKeeps(c: E.EngineConfig, gc: GridConfig, w: Pair, t: GridTurn, names: bool)
    requires WalksOnce(c) && Live(w.e.desk, w.g, {}, names) && (names ==> NamesTrades(t))
    requires w.e.breaker.running && TurnIsClear(c, gc, w, t)
    ensures var w' := TurnPair(c, gc, w, t); Live(w'.e.desk, w'.g, {}, names)
  {
    hide Live, PollPair, CyclePair, CycleIsClear;
    PollKeeps(c, w, t.poll, names);
    if t.cycle.Some? {
      CycleKeeps(c, gc, PollPair(c, w, t.poll), t.cycle.value, names);
    }
  }

  /** After a poll that could read the trades every order is for a placed side, and so out of reach. */
  lemma ReadIsClear(c: E.EngineConfig, gc: GridConfig, w: Pair, t: GridTurn, names: bool)
    requires WalksOnce(c) && Live(w.e.desk, w.g, {}, names) && ReadsFirst(t)
    ensures TurnIsClear(c, gc, w, t)
  {
    hide Live, PollPair, StartOf, E.StartCycle, HearNew, StartBar, Slides, OutOfReach, Tracks;
    if t.cycle.Some? {
      PollKeeps(c, w, t.poll, names);
      var w1, y := PollPair(c, w, t.poll), t.cycle.value;
      StartKeeps(c, w1, StartOf(c, gc, w1, y), names);
      if y.bars != [] {
        var bar, g1 := y.bars[|y.bars|-1], ToldAt(c, gc, w1, y);
        StartBarTracks(g1, w1.e.desk.orders.Keys, bar);
        PlacedIsOutOfReach(gc, StartBar(g1, bar), w1.e.desk.orders.Keys);
      }
    }
  }

  lemma StartIsLive(c: E.EngineConfig, seed: Option<real>, today: string, names: bool)
    ensures var w := StartPair(c, seed, today); Live(w.e.desk, w.g, {}, names)
  {
  }

  lemma {:induction false} RunIsLive(c: E.EngineConfig, gc: GridConfig, w: Pair, turns: seq<GridTurn>, names: bool)
    requires WalksOnce(c) && Live(w.e.desk, w.g, {}, names) && AlwaysClear(c, gc, w, turns)
    requires names ==> forall m :: 0 <= m < |turns| ==> NamesTrades(turns[m])
    ensures var w' := LoopPair(c, gc, w, turns); Live(w'.e.desk, w'.g, {}, names)
  {
    hide Live, TurnPair, NamesTrades, AlwaysClear, TurnIsClear;
    if turns != [] {
      var init := turns[..|turns|-1];
      ClearSplit(c, gc, w, turns);
      assert forall m :: 0 <= m < |init| ==> turns[m] == init[m];
      RunIsLive(c, gc, w, init, names);
      if LoopPair(c, gc, w, init).e.breaker.running {
        TurnKeeps(c, gc, LoopPair(c, gc, w, init), turns[|turns|-1], names);
      }
    }
  }

  lemma {:induction false} ReadRunIsClear(c: E.EngineConfig, gc: GridConfig, w: Pair, turns: seq<GridTurn>)
    requires WalksOnce(c) && Live(w.e.desk, w.g, {}, false)
    requires forall i :: 0 <= i < |turns| ==> ReadsFirst(turns[i])
    ensures AlwaysClear(c, gc, w, turns)
  {
    hide Live, LoopPair, TurnIsClear, ReadsFirst;
    if turns != [] {
      hide AlwaysClear;
      var init := turns[..|turns|-1];
      ReadRunIsClear(c, gc, w, init);
      ClearSplit(c, gc, w, turns);
      RunIsLive(c, gc, w, init, false);
      ReadIsClear(c, gc, LoopPair(c, gc, w, init), turns[|turns|-1], false);
    }
  }

  /** The engine's orders and trades are sides that the strategy knows of. */
  ghost predicate SidesAgree(d: E.Desk, g: Grid) {
    // orders are for sides believed placed or to be closed, trades for filled sides
    && d.orders.Keys <= g.placed + g.pendingClose
    && d.trades.Keys <= g.filled
    // and no side has both
    && d.orders.Keys !! g.filled && g.placed !! g.filled
    && Separate(d)
  }

  lemma LiveSidesAgree(d: E.Desk, g: Grid, names: bool)
    requires Live(d, g, {}, names)
    ensures SidesAgree(d, g) && (names ==> d.trades.Keys == g.filled)
  {
    hide Waits, HoldsNothing;
  }

  /**
   Main result: whatever the broker and the clock do, and however many reads fail, the engine's orders are for sides
   that the strategy believes placed or has asked to close, its trades are for filled sides, and no side has both, as
   long as every cycle that slides the window finds the orders that are still to be cancelled out of reach.
   */
  lemma ClearRunsAgree(c: E.EngineConfig, gc: GridConfig, seed: Option<real>, today: string, turns: seq<GridTurn>)
    requires WalksOnce(c) && AlwaysClear(c, gc, StartPair(c, seed, today), turns)
    ensures var w := LoopPair(c, gc, StartPair(c, seed, today), turns); SidesAgree(w.e.desk, w.g)
  {
    hide LoopPair, AlwaysClear, Live, SidesAgree;
    StartIsLive(c, seed, today, false);
    RunIsLive(c, gc, StartPair(c, seed, today), turns, false);
    var w := LoopPair(c, gc, StartPair(c, seed, today), turns);
    LiveSidesAgree(w.e.desk, w.g, false);
  }

  /** Main result: so it is in every run whose cycles follow a poll that could read the trades. */
  lemma OrdersAndTradesAreSides(c: E.EngineConfig, gc: GridConfig, seed: Option<real>, today: string,
                                turns: seq<GridTurn>)
    requires WalksOnce(c) && forall i :: 0 <= i < |turns| ==> ReadsFirst(turns[i])
    ensures var w := LoopPair(c, gc, StartPair(c, seed, today), turns); SidesAgree(w.e.desk, w.g)
  {
    hide LoopPair, AlwaysClear, Live, SidesAgree;
    StartIsLive(c, seed, today, false);
    ReadRunIsClear(c, gc, StartPair(c, seed, today), turns);
    ClearRunsAgree(c, gc, seed, today, turns);
  }

  /** And with a broker that names its trades, the trades are exactly the filled sides. */
  lemma TradesAreFilledSides(c: E.EngineConfig, gc: GridConfig, seed: Option<real>, today: string, turns: seq<GridTurn>)
    requires WalksOnce(c) && forall i :: 0 <= i < |turns| ==> ReadsFirst(turns[i]) && NamesTrades(turns[i])
    ensures var w := LoopPair(c, gc, StartPair(c, seed, today), turns); w.e.desk.trades.Keys == w.g.filled
  {
    hide LoopPair, AlwaysClear, Live, SidesAgree, NamesTrades;
    StartIsLive(c, seed, today, true);
    StartIsLive(c, seed, today, false);
    ReadRunIsClear(c, gc, StartPair(c, seed, today), turns);
    RunIsLive(c, gc, StartPair(c, seed, today), turns, true);
    var w := LoopPair(c, gc, StartPair(c, seed, today), turns);
    LiveSidesAgree(w.e.desk, w.g, true);
  }
}
