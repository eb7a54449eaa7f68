/**
 The sliding grid and the live engine tell the same story: every tracked order is for a side that the strategy believes
 placed or has asked to close, and the live trades are the sides that it believes filled.
 */
module LiveGrid {
  import opened Market
  import opened Rounding
  import opened GridModel
  import opened GridTracking
  import opened LiveGridModel
  import opened LiveMatching
  import opened LiveLedger
  import E = EngineModel

  /** A broker that `names` its trades gives every accepted order an id; then no filled side is without a trade. */
  ghost predicate Holds(d: E.Desk, g: Grid, names: bool) {
    d.trades.Keys <= g.filled && (names ==> g.filled <= d.trades.Keys)
  }

  /** What holds between the desk and the strategy while signals for the keys `hand` are about to be handled. */
  ghost predicate Live(d: E.Desk, g: Grid, hand: set<Key>, names: bool) {
    Tracks(g, d.orders.Keys + hand) && hand !! d.orders.Keys && Holds(d, g, names) && NoLegs(d)
  }

  // ---- Hearing

  lemma {:induction false} HearConcat(g: Grid, es: seq<E.Event>, fs: seq<E.Event>)
    ensures HearAll(g, es + fs) == HearAll(HearAll(g, es), fs)
  {
    if fs == [] {
      assert es + fs == es;
    } else {
      hide Hear;
      HearConcat(g, es, fs[..|fs|-1]);
      assert (es + fs)[..|es + fs|-1] == es + fs[..|fs|-1];
    }
  }

  /** Hearing in two parts is hearing at once. */
  lemma HearSplit(g: Grid, d: E.Desk, d1: E.Desk, d2: E.Desk)
    requires d.trace <= d1.trace && d1.trace <= d2.trace
    ensures d.trace <= d2.trace && HearNew(g, d, d2) == HearNew(HearNew(g, d, d1), d1, d2)
  {
    hide HearAll;
    var es, fs := d1.trace[|d.trace|..], d2.trace[|d1.trace|..];
    assert d2.trace[|d.trace|..] == es + fs;
    HearConcat(g, es, fs);
  }

  lemma HearOne(g: Grid, d: E.Desk, d': E.Desk, event: E.Event)
    requires d'.trace == d.trace + [event]
    ensures d.trace <= d'.trace && HearNew(g, d, d') == Hear(g, event)
  {
    hide Hear;
    assert d'.trace[|d.trace|..] == [event];
    assert [event][..0] == [] && HearAll(g, []) == g;
  }

  lemma HearNothing(g: Grid, d: E.Desk, d': E.Desk)
    requires d'.trace == d.trace
    ensures d.trace <= d'.trace && HearNew(g, d, d') == g
  {
  }

  // ---- One event and one change of the desk

  lemma FilledKeeps(d: E.Desk, g: Grid, hand: set<Key>, names: bool, k: Key, d': E.Desk)
    requires Live(d, g, hand, names) && k in d.orders.Keys + hand
    requires d'.orders.Keys == d.orders.Keys - {k} && NoLegs(d')
    requires d'.trades.Keys == d.trades.Keys || d'.trades.Keys == d.trades.Keys + {k}
    requires names ==> d'.trades.Keys == d.trades.Keys + {k}
    ensures Live(d', ReportFill(g, k), hand - {k}, names)
  {
  }

  lemma {:induction false} WithoutAbsent(queue: seq<Signal>, k: Key)
    requires forall i :: 0 <= i < |queue| ==> queue[i].Entry? && queue[i].key != k
    ensures WithoutKey(queue, k) == queue
  {
    if queue != [] {
      WithoutAbsent(queue[..|queue|-1], k);
    }
  }

  lemma RejectedKeeps(d: E.Desk, g: Grid, hand: set<Key>, names: bool, k: Key, d': E.Desk)
    requires Live(d, g, hand, names) && k in d.orders.Keys + hand
    requires d'.orders.Keys == d.orders.Keys - {k} && NoLegs(d') && d'.trades == d.trades
    ensures Live(d', OnRejected(g, k), hand - {k}, names)
  {
    WithoutAbsent(g.queue, k);
  }

  lemma ClosedKeeps(d: E.Desk, g: Grid, names: bool, k: Key, pnl: real, d': E.Desk)
    requires Live(d, g, {}, names) && k in d.trades
    requires d'.orders == d.orders && NoLegs(d') && d'.trades.Keys == d.trades.Keys - {k}
    ensures Live(d', ReportClosed(g, k, pnl), {}, names)
  {
  }

  // ---- Fills

  lemma MatchKeeps(c: E.EngineConfig, m: E.Matching, g: Grid, names: bool, k: Key, leg: E.OrderAnswer)
    requires Live(m.desk, g, {}, names) && k in m.desk.orders
    ensures var d, d' := m.desk, E.MatchOne(c, m, k, leg).desk;
      d.trace <= d'.trace && Live(d', HearNew(g, d, d'), {}, names) && d'.orders == d.orders - {k}
  {
    hide Live, HearNew, E.Nearest;
    var d, d' := m.desk, E.MatchOne(c, m, k, leg).desk;
    LiveHasNoLegs(d, g, {}, names);
    var none: set<Key> := {};
    assert none - {k} == none;
    var found := E.Nearest(m.unclaimed, OrderSideOf(k.side), Price(k.level));
    if found.None? || m.unclaimed[found.value].id == E.NO_ID {
      HearOne(g, d, d', E.TellRejected(k));
      RejectedKeeps(d, g, {}, names, k, d');
    } else {
      HearOne(g, d, d', E.TellFilled(k, m.unclaimed[found.value].openPrice));
      FilledKeeps(d, g, {}, names, k, d');
    }
  }

  lemma LiveHasNoLegs(d: E.Desk, g: Grid, hand: set<Key>, names: bool)
    requires Live(d, g, hand, names)
    ensures NoLegs(d) && d.trades.Keys <= g.filled
  {
  }

  lemma {:induction false} MatchesKeep(c: E.EngineConfig, m: E.Matching, g: Grid, names: bool, keys: seq<Key>,
                                       legs: Key -> E.OrderAnswer)
    requires Live(m.desk, g, {}, names) && NoRepeats(keys) && Elements(keys) <= m.desk.orders.Keys
    ensures var d, d' := m.desk, E.MatchAll(c, m, keys, legs).desk;
      && d.trace <= d'.trace && Live(d', HearNew(g, d, d'), {}, names)
      && d'.orders.Keys == d.orders.Keys - Elements(keys)
  {
    var d := m.desk;
    if keys == [] {
      HearNothing(g, d, d);
      assert Elements(keys) == {};
    } else {
      hide Live, HearNew, E.MatchOne;
      var init, k := keys[..|keys|-1], keys[|keys|-1];
      LastIsNew(keys);
      MatchesKeep(c, m, g, names, init, legs);
      var m1 := E.MatchAll(c, m, init, legs);
      MatchKeeps(c, m1, HearNew(g, d, m1.desk), names, k, legs(k));
      HearSplit(g, d, m1.desk, E.MatchAll(c, m, keys, legs).desk);
    }
  }

  lemma SameBooks(d: E.Desk, g: Grid, hand: set<Key>, names: bool, d': E.Desk)
    requires Live(d, g, hand, names) && d'.orders == d.orders && d'.trades == d.trades && d'.meta == d.meta
    ensures Live(d', g, hand, names)
  {
  }

  lemma FillsKeep(c: E.EngineConfig, d: E.Desk, g: Grid, names: bool, open: seq<E.LiveTrade>, resting: Option<set<nat>>,
                  legs: Key -> E.OrderAnswer)
    requires WalksOnce(c) && Live(d, g, {}, names)
    ensures var d' := E.CheckLimitFills(c, d, open, resting, legs);
      d.trace <= d'.trace && Live(d', HearNew(g, d, d'), {}, names)
  {
    hide Live, HearNew, E.MatchAll, E.Unmapped;
    if d.orders == map[] {
      HearNothing(g, d, d);
    } else {
      var d1 := E.Log(d, E.ReadOrders);
      HearOne(g, d, d1, E.ReadOrders);
      SameBooks(d, g, {}, names, d1);
      if resting.Some? {
        var keys := c.order(E.Gone(d.orders, resting.value));
        assert NoRepeats(keys) && Elements(keys) == E.Gone(d.orders, resting.value);
        var m := E.Matching(d1, E.Unmapped(open, d.trades.Values));
        MatchesKeep(c, m, g, names, keys, legs);
        HearSplit(g, d, d1, E.MatchAll(c, m, keys, legs).desk);
      }
    }
  }

  // ---- Closures

  lemma ClosureKeeps(d: E.Desk, g: Grid, names: bool, k: Key, lastPrice: Option<real>)
    requires Live(d, g, {}, names)
    ensures var d' := E.CloseOut(d, k, lastPrice); d.trace <= d'.trace && Live(d', HearNew(g, d, d'), {}, names)
  {
    hide Live, HearNew, E.StopOutRow;
    var d' := E.CloseOut(d, k, lastPrice);
    if k in d.trades {
      var told := E.TellClosed(k, E.OrZero(E.StopOutRow(d, k, d.trades[k], lastPrice).pnl), false);
      HearOne(g, d, d', told);
      LiveHasNoLegs(d, g, {}, names);
      ClosedKeeps(d, g, names, k, told.pnl, d');
    } else {
      HearNothing(g, d, d);
    }
  }

  lemma {:induction false} ClosuresKeep(d: E.Desk, g: Grid, names: bool, keys: seq<Key>, lastPrice: Option<real>)
    requires Live(d, g, {}, names)
    ensures var d' := E.CloseOutAll(d, keys, lastPrice); d.trace <= d'.trace && Live(d', HearNew(g, d, d'), {}, names)
  {
    hide Live, HearNew, E.CloseOut;
    if keys == [] {
      HearNothing(g, d, d);
    } else {
      var init, k := keys[..|keys|-1], keys[|keys|-1];
      ClosuresKeep(d, g, names, init, lastPrice);
      var d1 := E.CloseOutAll(d, init, lastPrice);
      ClosureKeeps(d1, HearNew(g, d, d1), names, k, lastPrice);
      HearSplit(g, d, d1, E.CloseOutAll(d, keys, lastPrice));
    }
  }

  lemma ReconcileKeeps(c: E.EngineConfig, d: E.Desk, g: Grid, names: bool, open: seq<E.LiveTrade>,
                       lastPrice: Option<real>,
                       p: E.PollAnswers)
    requires WalksOnce(c) && Live(d, g, {}, names)
    ensures var d' := E.Reconcile(c, d, open, lastPrice, p);
      d.trace <= d'.trace && Live(d', HearNew(g, d, d'), {}, names)
  {
    hide Live, HearNew, E.CheckLimitFills, E.CloseOutAll, E.Vanished;
    var d1 := E.CheckLimitFills(c, d, open, p.resting, p.legs);
    FillsKeep(c, d, g, names, open, p.resting, p.legs);
    var g1, d2 := HearNew(g, d, d1), E.Reconcile(c, d, open, lastPrice, p);
    if d1.trades == map[] {
      HearNothing(g1, d1, d2);
    } else {
      var gone := E.Vanished(d1.trades, E.OpenIds(open), d1.trades.Values - d.trades.Values);
      ClosuresKeep(d1, g1, names, c.order(gone), lastPrice);
    }
    HearSplit(g, d, d1, d2);
  }

  // ---- Events that tell the strategy nothing

  predicate Silent(event: E.Event) {
    || event.ReadTrades? || event.ReadOrders? || event.ReadSummary? || event.Place? || event.CancelOrder?
      || event.CancelAll?
    || event.CloseTrade?
  }

  lemma {:induction false} HearSilent(g: Grid, events: seq<E.Event>)
    requires forall e :: e in events ==> Silent(e)
    ensures HearAll(g, events) == g
  {
    if events != [] {
      HearSilent(g, events[..|events|-1]);
      assert events[|events|-1] in events;
    }
  }

  lemma HearOnly(g: Grid, d: E.Desk, d': E.Desk, events: seq<E.Event>)
    requires d'.trace == d.trace + events && forall e :: e in events ==> Silent(e)
    ensures d.trace <= d'.trace && HearNew(g, d, d') == g
  {
    hide HearAll;
    assert d'.trace[|d.trace|..] == events;
    HearSilent(g, events);
  }

  lemma HearLast(g: Grid, d: E.Desk, d': E.Desk, events: seq<E.Event>, last: E.Event)
    requires d'.trace == d.trace + events + [last] && forall e :: e in events ==> Silent(e)
    ensures d.trace <= d'.trace && HearNew(g, d, d') == Hear(g, last)
  {
    hide HearNew, Hear;
    var d1 := d.(trace := d.trace + events);
    HearOnly(g, d, d1, events);
    HearOne(g, d1, d', last);
    HearSplit(g, d, d1, d');
  }

  // ---- Trims

  /** What the strategy hears of the trim of one key. */
  lemma TrimHeard(g: Grid, d: E.Desk, k: Key, answer: E.CloseAnswer)
    ensures var d' := E.TrimLevel(d, k, answer);
      && d.trace <= d'.trace
      && HearNew(g, d, d') == if k in d.trades && answer.Done? then ReportClosed(g, k, E.OrZero(answer.pnl)) else g
  {
    hide HearNew, ReportClosed;
    var d1, d' := E.CancelAt(d, k), E.TrimLevel(d, k, answer);
    var first := if k in d.orders then [E.CancelOrder(d.orders[k])] else [];
    assert d1.trace == d.trace + first;
    if k !in d.trades {
      HearOnly(g, d, d', first);
    } else if answer.Failed? {
      HearOnly(g, d, d', first + [E.CloseTrade(d.trades[k])]);
    } else {
      HearLast(g, d, d', first + [E.CloseTrade(d.trades[k])], E.TellClosed(k, E.OrZero(answer.pnl), true));
    }
  }

  /** A key is walked: its order is gone, and its mark can be dropped. */
  lemma CancelKeeps(d: E.Desk, g: Grid, names: bool, k: Key)
    requires Live(d, g, {}, names)
    ensures Live(E.CancelAt(d, k), g.(pendingClose := g.pendingClose - {k}), {}, names)
  {
  }

  lemma TrimBooks(d: E.Desk, k: Key, answer: E.CloseAnswer)
    ensures var d1, d' := E.CancelAt(d, k), E.TrimLevel(d, k, answer);
      && d'.orders == d1.orders && d'.meta == d1.meta && d1.trades == d.trades
      && d'.trades == if k in d.trades && answer.Done? then d.trades - {k} else d.trades
  {
  }

  lemma TrimKeeps(d: E.Desk, g: Grid, names: bool, k: Key, answer: E.CloseAnswer)
    requires Live(d, g, {}, names)
    ensures var d' := E.TrimLevel(d, k, answer);
      Live(d', HearNew(g, d, d').(pendingClose := g.pendingClose - {k}), {}, names)
  {
    hide Live, HearNew, E.TrimLevel, E.CancelAt;
    TrimHeard(g, d, k, answer);
    TrimBooks(d, k, answer);
    CancelKeeps(d, g, names, k);
    var d1, g1, d' := E.CancelAt(d, k), g.(pendingClose := g.pendingClose - {k}), E.TrimLevel(d, k, answer);
    LiveHasNoLegs(d1, g1, {}, names);
    if k in d.trades && answer.Done? {
      ClosedKeeps(d1, g1, names, k, E.OrZero(answer.pnl), d');
    } else {
      SameBooks(d1, g1, {}, names, d');
    }
  }

  /** What the strategy hears of trims does not depend on its marks. */
  lemma {:induction false} TrimsIgnoreMarks(g: Grid, marks: set<Key>, d: E.Desk, keys: seq<Key>,
                                            closes: Key -> E.CloseAnswer)
    ensures var d' := E.TrimLevels(d, keys, closes);
      && d.trace <= d'.trace
      && HearNew(g.(pendingClose := marks), d, d') == HearNew(g, d, d').(pendingClose := marks)
      && HearNew(g, d, d').pendingClose == g.pendingClose
  {
    hide HearNew, E.TrimLevel;
    var g1 := g.(pendingClose := marks);
    if keys == [] {
      HearNothing(g, d, d);
      HearNothing(g1, d, d);
    } else {
      var init, k := keys[..|keys|-1], keys[|keys|-1];
      TrimsIgnoreMarks(g, marks, d, init, closes);
      var d1, d' := E.TrimLevels(d, init, closes), E.TrimLevels(d, keys, closes);
      TrimHeard(HearNew(g, d, d1), d1, k, closes(k));
      TrimHeard(HearNew(g1, d, d1), d1, k, closes(k));
      HearSplit(g, d, d1, d');
      HearSplit(g1, d, d1, d');
    }
  }

  /** The same, for a strategy that has already handed its marks over. */
  lemma TrimStep(d: E.Desk, g: Grid, marks: set<Key>, names: bool, k: Key, answer: E.CloseAnswer)
    requires Live(d, g.(pendingClose := marks), {}, names)
    ensures var d' := E.TrimLevel(d, k, answer);
      d.trace <= d'.trace && Live(d', HearNew(g, d, d').(pendingClose := marks - {k}), {}, names)
  {
    hide Live, HearNew, E.TrimLevel;
    TrimKeeps(d, g.(pendingClose := marks), names, k, answer);
    TrimHeard(g, d, k, answer);
    TrimHeard(g.(pendingClose := marks), d, k, answer);
  }

  lemma {:induction false} TrimsKeep(d: E.Desk, g: Grid, names: bool, keys: seq<Key>, closes: Key -> E.CloseAnswer)
    requires Live(d, g, {}, names)
    ensures var d' := E.TrimLevels(d, keys, closes);
      && d.trace <= d'.trace
      && Live(d', HearNew(g, d, d').(pendingClose := g.pendingClose - Elements(keys)), {}, names)
  {
    hide Live, HearNew, E.TrimLevel;
    if keys == [] {
      HearNothing(g, d, d);
      assert Elements(keys) == {} && g.pendingClose - {} == g.pendingClose;
    } else {
      var init, k := keys[..|keys|-1], keys[|keys|-1];
      assert keys == init + [k];
      assert g.pendingClose - Elements(init) - {k} == g.pendingClose - Elements(keys);
      hide Elements;
      TrimsKeep(d, g, names, init, closes);
      var d1 := E.TrimLevels(d, init, closes);
      TrimStep(d1, HearNew(g, d, d1), g.pendingClose - Elements(init), names, k, closes(k));
      HearSplit(g, d, d1, E.TrimLevels(d, keys, closes));
    }
  }

  // ---- The poll

  /** Once the snapshot was read, every tracked order is for a placed side. */
  lemma PollKeeps(c: E.EngineConfig, w: Pair, p: E.PollAnswers, names: bool)
    requires WalksOnce(c) && Live(w.e.desk, w.g, {}, names)
    ensures var w' := PollPair(c, w, p);
      && Live(w'.e.desk, w'.g, {}, names)
      && (p.open.Some? ==> w'.g.pendingClose == {} && w'.e.desk.orders.Keys <= w'.g.placed)
  {
    hide HearNew, E.Reconcile, E.TrimLevels;
    var d := E.Log(w.e.desk, E.ReadTrades(E.CountOf(p.open)));
    SameBooks(w.e.desk, w.g, {}, names, d);
    if p.open.Some? {
      ReconcileKeeps(c, d, w.g, names, p.open.value, w.e.lastPrice, p);
      var d1 := E.Reconcile(c, d, p.open.value, w.e.lastPrice, p);
      var g1 := HearNew(w.g, d, d1);
      var keys := c.order(g1.pendingClose);
      assert Elements(keys) == g1.pendingClose;
      TrimsKeep(d1, g1, names, keys, p.closes);
      TrimsIgnoreMarks(g1, {}, d1, keys, p.closes);
      assert g1.pendingClose - Elements(keys) == {};
    }
  }
}
