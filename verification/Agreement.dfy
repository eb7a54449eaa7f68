/**
 The three copies of the truth: the sides the strategy believes placed and filled, the runner's
 maps, and the broker's lists. This module proves that every phase of a step keeps them in step.
 */
module Agreement {
  import opened Market
  import opened Rounding
  import opened GridModel
  import opened BrokerModel
  import opened RunnerModel
  import opened Books
  import opened BrokerProofs

  type Table = map<nat, Option<Key>>

  /** The runner's maps are the inverses of the tables, and its live keys are the strategy's filled sides. */
  ghost predicate Mirrored(w: World, live: Table, resting: Table) {
    && Inverse(w.tm, live) && Inverse(w.om, resting)
    && w.tm.Keys == w.g.filled && w.g.placed !! w.g.filled
  }

  /** Signals still to be processed: distinct entries, placed, not yet at the broker, not being trimmed. */
  ghost predicate QueueOk(g: Grid, orders: set<Key>, sigs: seq<Signal>) {
    && (forall i :: 0 <= i < |sigs| ==> sigs[i].Entry?)
    && (forall i, j :: 0 <= i < j < |sigs| ==> sigs[i].key != sigs[j].key)
    && (forall i :: 0 <= i < |sigs| ==> sigs[i].key in g.placed && sigs[i].key !in orders
                                        && sigs[i].key !in g.pendingClose && sigs[i].key.level !in g.retired)
  }

  ghost predicate Queued(sigs: seq<Signal>, k: Key) {
    exists i :: 0 <= i < |sigs| && sigs[i].Entry? && sigs[i].key == k
  }

  /** How the strategy's sides relate to the resting orders while signals `sigs` wait. */
  ghost predicate SidesOk(c: GridConfig, g: Grid, orders: set<Key>, sigs: seq<Signal>) {
    && QueueOk(g, orders, sigs)
    && orders <= g.placed + g.pendingClose
    && (forall k :: k in g.placed ==> k in orders || Queued(sigs, k) || k.level in g.retired)
    && (forall k :: k in g.filled && k.level in g.retired ==> k in g.pendingClose)
    && (forall k :: k in orders && k.level in g.retired ==> k in g.pendingClose)
    && (forall k :: k in g.pendingClose ==> k.level in g.retired || (k.level !in Window(c, g) && k !in g.placed))
    && (forall k :: k in g.filled ==> k.level in g.fillOrder)
  }

  /** Without an anchor, or paused, the strategy holds nothing; the anchor is never retired. */
  ghost predicate SessionOk(g: Grid) {
    && !g.closing
    && (g.anchor.None? || !g.active ==> g.placed == {} && g.filled == {} && g.pendingClose == {})
    && (g.anchor.None? ==> g.retired == {} && g.sessionRealized == 0.0)
    && (g.anchor.Some? ==> Cents(g.anchor.value) !in g.retired)
  }

  /** The broker's books are in order, banked exactly once, and mirrored by the runner and the strategy. */
  ghost predicate Sound(w: World, paidIn: real) {
    && BrokerOk(w.b) && Balanced(w.b, paidIn) && w.pnls == Pnls(w.b.closed)
    && Mirrored(w, Tickets(w.b.openTrades), Tickets(w.b.pending))
  }

  /** The invariant while signals `sigs` wait to be processed. */
  ghost predicate Agreed(c: GridConfig, w: World, sigs: seq<Signal>, paidIn: real) {
    && Sound(w, paidIn)
    && SidesOk(c, w.g, w.om.Keys, sigs)
    && SessionOk(w.g)
  }

  /** The invariant between steps. */
  ghost predicate InStep(c: GridConfig, w: World, paidIn: real) {
    Agreed(c, w, [], paidIn) && w.g.queue == [] && w.g.pendingClose == {}
  }

  /** A close-all that waits has an anchor and an empty queue; without one the session is in order. */
  ghost predicate Paced(g: Grid) {
    if g.closing then g.queue == [] && g.anchor.Some? && Cents(g.anchor.value) !in g.retired else SessionOk(g)
  }

  /**
   The invariant of every run, also when drains were cut short: the sides `lost`, whose signals were dropped, count as
   ordered.
   */
  ghost predicate Surviving(c: GridConfig, w: World, lost: set<Key>, paidIn: real) {
    Sound(w, paidIn) && Sided(c, w.g, w.om.Keys, lost)
  }

  ghost predicate Sided(c: GridConfig, g: Grid, orders: set<Key>, lost: set<Key>) {
    lost !! orders && SidesOk(c, g, orders + lost, g.queue) && Paced(g)
  }

  /** With nothing lost, nothing queued and no close-all waiting it is the agreement. */
  lemma InStepSurvives(c: GridConfig, w: World, paidIn: real)
    ensures InStep(c, w, paidIn) <==>
      Surviving(c, w, {}, paidIn) && w.g.queue == [] && w.g.pendingClose == {} && !w.g.closing
  {
    assert w.om.Keys + {} == w.om.Keys;
    hide Sound, SidesOk, SessionOk;
  }

  /** The state in which fills and closures are reported: nothing being trimmed. */
  ghost predicate Ready(c: GridConfig, w: World, lost: set<Key>, live: Table, resting: Table) {
    Mirrored(w, live, resting) && Sided(c, w.g, w.om.Keys, lost) && w.g.pendingClose == {}
  }

  /** What no fill and no closure changes of the strategy. */
  predicate SameCourse(g: Grid, g': Grid) {
    && g'.anchor == g.anchor && g'.active == g.active && g'.closing == g.closing
    && g'.queue == g.queue && g'.retired == g.retired && g'.sessions == g.sessions
  }

  // ---- Fills

  lemma FillKeepsSides(c: GridConfig, g: Grid, orders: set<Key>, lost: set<Key>, k: Key)
    requires Sided(c, g, orders, lost) && g.pendingClose == {} && g.placed !! g.filled && k in orders
    ensures k !in g.filled && Sided(c, ReportFill(g, k), orders - {k}, lost)
    ensures ReportFill(g, k).placed !! ReportFill(g, k).filled
  {
    assert orders - {k} + lost == orders + lost - {k};
  }

  lemma FillMirrors(w: World, t: OpenTrade, k: Key, live: Table, resting: Table)
    requires Mirrored(w, live, resting)
    requires Distinct(w.b.openTrades) && t in w.b.openTrades && t.gridKey == Some(k)
    requires k in w.om && k !in w.g.filled && t.id !in live
    ensures HandleFill(w, t) == w.(g := ReportFill(w.g, k), tm := w.tm[k := t.id], om := w.om - {k})
    ensures Mirrored(HandleFill(w, t), live[t.id := Some(k)], resting - {w.om[k]})
  {
    StampSame(w.b.openTrades, t, k);
    InverseRemove(w.om, resting, k);
    InverseAdd(w.tm, live, k, t.id);
    assert w.tm[k := t.id].Keys == w.tm.Keys + {k};
  }

  lemma FillKeeps(c: GridConfig, w: World, t: OpenTrade, k: Key, lost: set<Key>, live: Table, resting: Table)
    requires Ready(c, w, lost, live, resting)
    requires Distinct(w.b.openTrades) && t in w.b.openTrades && t.gridKey == Some(k)
    requires k in w.om && t.id !in live
    ensures Ready(c, HandleFill(w, t), lost, live[t.id := Some(k)], resting - {w.om[k]})
    ensures HandleFill(w, t).b == w.b && HandleFill(w, t).pnls == w.pnls && SameCourse(w.g, HandleFill(w, t).g)
  {
    FillKeepsSides(c, w.g, w.om.Keys, lost, k);
    FillMirrors(w, t, k, live, resting);
    assert (w.om - {k}).Keys == w.om.Keys - {k};
  }

  ghost predicate AfterFills(c: GridConfig, w: World, w': World, lost: set<Key>, live: Table, resting: Table) {
    w'.b == w.b && w'.pnls == w.pnls && SameCourse(w.g, w'.g) && Ready(c, w', lost, live, resting)
  }

  lemma UpdateAfterMerge(live: Table, added: Table, id: nat, k: Option<Key>)
    ensures live + added[id := k] == (live + added)[id := k]
  {
  }

  lemma TicketsOfPrefix<T>(live: Table, es: seq<Booked<T>>)
    requires es != [] && Distinct(es)
    ensures live + Tickets(es) == (live + Tickets(es[..|es|-1]))[es[|es|-1].id := es[|es|-1].gridKey]
    ensures Tickets(es[..|es|-1]).Keys == Ids(es[..|es|-1])
  {
    hide Distinct, Ids;
    DistinctPrefix(es);
    TicketsAre(es[..|es|-1]);
    UpdateAfterMerge(live, Tickets(es[..|es|-1]), es[|es|-1].id, es[|es|-1].gridKey);
  }

  lemma TableMinusPrefix<T>(table: Table, es: seq<Booked<T>>)
    requires es != [] && Distinct(es)
    ensures table - Ids(es) == table - Ids(es[..|es|-1]) - {es[|es|-1].id}
  {
  }

  lemma OneMoreFill(c: GridConfig, w: World, w1: World, t: OpenTrade, id: nat, lost: set<Key>, live: Table,
                    resting: Table)
    requires AfterFills(c, w, w1, lost, live, resting)
    requires Distinct(w.b.openTrades) && t in w.b.openTrades && t.id !in live
    requires id in resting && resting[id] == t.gridKey
    ensures AfterFills(c, w, HandleFill(w1, t), lost, live[t.id := t.gridKey], resting - {id})
  {
    FillKeeps(c, w1, t, t.gridKey.value, lost, live, resting);
  }

  lemma TablesStep(fills: seq<OpenTrade>, ps: seq<PendingOrder>, live: Table, resting: Table)
    requires fills != [] && ps != [] && Distinct(fills) && Distinct(ps)
    requires fills[|fills|-1].id !in live && ps[|ps|-1].id in resting
    ensures live + Tickets(fills)
      == (live + Tickets(fills[..|fills|-1]))[fills[|fills|-1].id := fills[|fills|-1].gridKey]
    ensures fills[|fills|-1].id !in live + Tickets(fills[..|fills|-1])
    ensures resting - Ids(ps) == resting - Ids(ps[..|ps|-1]) - {ps[|ps|-1].id}
    ensures ps[|ps|-1].id in resting - Ids(ps[..|ps|-1])
  {
    DistinctPrefix(fills);
    DistinctPrefix(ps);
    TicketsOfPrefix(live, fills);
    TableMinusPrefix(resting, ps);
  }

  /** The fills of the bar move their keys from the resting table to the live one. */
  lemma {:induction false} FillsKeep(c: GridConfig, w: World, fills: seq<OpenTrade>, ps: seq<PendingOrder>,
                                     lost: set<Key>, live: Table, resting: Table)
    requires Ready(c, w, lost, live, resting)
    requires Distinct(w.b.openTrades) && Distinct(fills) && Distinct(ps)
    requires |fills| == |ps| && forall i :: 0 <= i < |ps| ==> fills[i].gridKey == ps[i].gridKey
    requires forall i :: 0 <= i < |fills| ==> fills[i] in w.b.openTrades && fills[i].id !in live
    requires forall i :: 0 <= i < |ps| ==> ps[i].id in resting && resting[ps[i].id] == ps[i].gridKey
    ensures AfterFills(c, w, HandleFills(w, fills), lost, live + Tickets(fills), resting - Ids(ps))
  {
    if fills == [] {
      assert live + Tickets(fills) == live && resting - Ids(ps) == resting;
    } else {
      FillsKeep(c, w, fills[..|fills|-1], ps[..|ps|-1], lost, live, resting);
      TablesStep(fills, ps, live, resting);
      OneMoreFill(c, w, HandleFills(w, fills[..|fills|-1]), fills[|fills|-1], ps[|ps|-1].id, lost,
                  live + Tickets(fills[..|fills|-1]), resting - Ids(ps[..|ps|-1]));
    }
  }

  // ---- Closures

  /** Fewer filled sides and all else the same. */
  lemma FewerFilledKeepsSides(c: GridConfig, g: Grid, g': Grid, orders: set<Key>, sigs: seq<Signal>)
    requires SidesOk(c, g, orders, sigs) && Window(c, g') == Window(c, g)
    requires g'.placed == g.placed && g'.filled <= g.filled && g'.pendingClose == g.pendingClose
    requires g'.retired == g.retired && g'.fillOrder == g.fillOrder
    ensures SidesOk(c, g', orders, sigs)
  {
    hide Window;
  }

  lemma ClosedKeepsSides(c: GridConfig, g: Grid, orders: set<Key>, sigs: seq<Signal>, k: Key, pnl: real)
    requires SidesOk(c, g, orders, sigs) && k in g.filled && k !in g.placed
    ensures SidesOk(c, ReportClosed(g, k, pnl), orders, sigs)
  {
    var g' := ReportClosed(g, k, pnl);
    assert Window(c, g') == Window(c, g);
    assert g'.placed == g.placed;
    hide Window, SidesOk;
    FewerFilledKeepsSides(c, g, g', orders, sigs);
  }

  lemma ClosureKeepsSides(c: GridConfig, g: Grid, orders: set<Key>, lost: set<Key>, k: Key, pnl: real)
    requires Sided(c, g, orders, lost) && g.placed !! g.filled && k in g.filled
    ensures Sided(c, ReportClosed(g, k, pnl), orders, lost)
  {
    ClosedKeepsSides(c, g, orders + lost, g.queue, k, pnl);
    hide SidesOk;
  }

  /** Banking a live trade takes its key out of the map and out of the filled sides. */
  lemma BankKeeps(w: World, live: Table, resting: Table, id: nat, pnl: real)
    requires Mirrored(w, live, resting) && id in live
    ensures live[id].Some?
    ensures var k := live[id].value;
      && k in w.g.filled
      && Bank(w, id, pnl) == w.(g := ReportClosed(w.g, k, pnl), pnls := w.pnls + [pnl], tm := w.tm - {k})
      && Mirrored(Bank(w, id, pnl), live - {id}, resting)
  {
  }

  ghost predicate AfterClosures(c: GridConfig, w: World, w': World, pnls: seq<real>, lost: set<Key>, live: Table,
                                resting: Table) {
    w'.b == w.b && w'.pnls == w.pnls + pnls && SameCourse(w.g, w'.g) && Ready(c, w', lost, live, resting)
  }

  lemma OneMoreClosure(c: GridConfig, w: World, w1: World, x: ClosedTrade, pnls: seq<real>, lost: set<Key>, live: Table,
                       resting: Table)
    requires AfterClosures(c, w, w1, pnls, lost, live, resting) && x.id in live
    ensures AfterClosures(c, w, Bank(w1, x.id, x.pnl), pnls + [x.pnl], lost, live - {x.id}, resting)
  {
    hide Sided, Inverse;
    BankKeeps(w1, live, resting, x.id, x.pnl);
    ClosureKeepsSides(c, w1.g, w1.om.Keys, lost, live[x.id].value, x.pnl);
    assert w.pnls + (pnls + [x.pnl]) == w1.pnls + [x.pnl];
  }

  /** The closures of the bar leave the live table and are banked, each once and in order. */
  lemma {:induction false} ClosuresKeep(c: GridConfig, w: World, closures: seq<ClosedTrade>, ts: seq<OpenTrade>,
                                        lost: set<Key>, live: Table, resting: Table)
    requires Ready(c, w, lost, live, resting)
    requires Distinct(ts) && |closures| == |ts|
    requires forall i :: 0 <= i < |ts| ==> closures[i].id == ts[i].id
    requires forall t :: t in ts ==> t.id in live
    ensures AfterClosures(c, w, HandleClosures(w, closures), Pnls(closures), lost, live - Ids(ts), resting)
  {
    if closures == [] {
      assert live - Ids(ts) == live;
    } else {
      var cs, x := closures[..|closures|-1], closures[|closures|-1];
      var us, t := ts[..|ts|-1], ts[|ts|-1];
      DistinctPrefix(ts);
      TableMinusPrefix(live, ts);
      ClosuresKeep(c, w, cs, us, lost, live, resting);
      var live1 := live - Ids(us);
      assert t in ts;
      OneMoreClosure(c, w, HandleClosures(w, cs), x, Pnls(cs), lost, live1, resting);
    }
  }

  // ---- Steps 1 to 4

  lemma PnlsConcat(cs: seq<ClosedTrade>, ds: seq<ClosedTrade>)
    ensures Pnls(cs + ds) == Pnls(cs) + Pnls(ds)
  {
    if ds == [] {
      assert cs + ds == cs;
    } else {
      assert (cs + ds)[..|cs + ds|-1] == cs + ds[..|ds|-1];
      PnlsConcat(cs, ds[..|ds|-1]);
    }
  }

  /** A strategy that holds nothing means a flat broker. */
  lemma NothingHeldIsFlat(w: World)
    requires BrokerOk(w.b) && Mirrored(w, Tickets(w.b.openTrades), Tickets(w.b.pending))
    requires w.g.filled == {} && w.om == map[]
    ensures w.b.openTrades == [] && w.b.pending == []
  {
    TicketsAre(w.b.openTrades);
    TicketsAre(w.b.pending);
    InverseCount(w.tm, Tickets(w.b.openTrades));
    InverseCount(w.om, Tickets(w.b.pending));
    assert |w.tm.Keys| == 0;
  }

  lemma RemovalCommutes(live: Table, extra: Table, gone: set<nat>)
    requires gone <= live.Keys && extra.Keys !! live.Keys
    ensures live + extra - gone == live - gone + extra
  {
  }

  /** Removing the stopped trades first or last makes no difference: the fills are new. */
  lemma RunnerOrderIsBrokerOrder(live: Table, fills: seq<OpenTrade>, ts: seq<OpenTrade>)
    requires Distinct(fills)
    requires forall i :: 0 <= i < |ts| ==> ts[i].id in live
    requires forall i :: 0 <= i < |fills| ==> fills[i].id !in live
    ensures live + Tickets(fills) - Ids(ts) == live - Ids(ts) + Tickets(fills)
  {
    TicketsAre(fills);
    RemovalCommutes(live, Tickets(fills), Ids(ts));
  }

  lemma BarAssembled(c: GridConfig, w: World, b': Broker, w3: World, ts: seq<OpenTrade>, ps: seq<PendingOrder>,
                     fills: seq<OpenTrade>, closures: seq<ClosedTrade>, lost: set<Key>, paidIn: real)
    requires w.pnls == Pnls(w.b.closed) && BarOutcome(w.b, b', ts, ps, fills, closures, paidIn)
    requires w3.b == b' && w3.pnls == w.pnls + Pnls(closures)
    requires Ready(c, w3, lost, Tickets(w.b.openTrades) + Tickets(fills) - Ids(ts), Tickets(w.b.pending) - Ids(ps))
    ensures Surviving(c, w3, lost, paidIn) && w3.g.pendingClose == {}
  {
    RunnerOrderIsBrokerOrder(Tickets(w.b.openTrades), fills, ts);
    PnlsConcat(w.b.closed, closures);
  }

  lemma BarKeepsAgreement(c: GridConfig, w: World, b': Broker, ts: seq<OpenTrade>, ps: seq<PendingOrder>,
                          fills: seq<OpenTrade>, closures: seq<ClosedTrade>, lost: set<Key>, paidIn: real)
    requires Surviving(c, w, lost, paidIn) && w.g.pendingClose == {}
    requires BarOutcome(w.b, b', ts, ps, fills, closures, paidIn)
    ensures var w3 := HandleClosures(HandleFills(w.(b := b'), fills), closures);
      Surviving(c, w3, lost, paidIn) && w3.g.pendingClose == {} && SameCourse(w.g, w3.g) && w3.b == b'
  {
    var w1 := w.(b := b');
    var live, resting := Tickets(w.b.openTrades), Tickets(w.b.pending);
    FillsKeep(c, w1, fills, ps, lost, live, resting);
    var w2 := HandleFills(w1, fills);
    ClosuresKeep(c, w2, closures, ts, lost, live + Tickets(fills), resting - Ids(ps));
    BarAssembled(c, w, b', HandleClosures(w2, closures), ts, ps, fills, closures, lost, paidIn);
  }

  /** The state in which the strategy is asked, in any run: without an anchor there is nothing to count. */
  lemma BeforeDrainSurvives(rc: RunConfig, w: World, bar: Bar, lost: set<Key>, paidIn: real)
    requires Surviving(rc.grid, w, lost, paidIn) && w.g.pendingClose == {}
    ensures var w' := BeforeDrain(rc, w, bar);
      && Surviving(rc.grid, w', lost, paidIn) && w'.g.pendingClose == {} && SameCourse(w.g, w'.g)
      && (w'.g.anchor.None? ==> w'.g.sessionUnrealized == 0.0) && w'.b == ProcessBar(rc.broker, w.b, bar)
  {
    ProcessBarOutcome(rc.broker, w.b, bar, paidIn);
    var fills, closures := NewFills(rc.broker, w.b, bar), NewClosures(rc.broker, w.b, bar);
    BarKeepsAgreement(rc.grid, w, ProcessBar(rc.broker, w.b, bar), StoppedOut(w.b.openTrades, bar),
                      Triggered(w.b.pending, bar), fills, closures, lost, paidIn);
    var w3 := HandleClosures(HandleFills(w.(b := ProcessBar(rc.broker, w.b, bar)), fills), closures);
    var pnl := Round2(Unrealized(w3.b.openTrades, bar.close));
    UnrealizedKeepsAgreement(rc.grid, w3, pnl, lost, paidIn);
    if w3.g.anchor.None? {
      assert w3.om == map[] by { assert w3.om.Keys == {}; }
      NothingHeldIsFlat(w3);
      assert pnl == 0.0 by { RoundInteger(0); }
    }
  }

  lemma UnrealizedKeepsAgreement(c: GridConfig, w: World, pnl: real, lost: set<Key>, paidIn: real)
    requires Surviving(c, w, lost, paidIn)
    ensures Surviving(c, w.(g := UpdateUnrealized(w.g, pnl)), lost, paidIn)
  {
  }

  /** The same for a run in step. */
  lemma BeforeDrainKeepsAgreement(rc: RunConfig, w: World, bar: Bar, paidIn: real)
    requires InStep(rc.grid, w, paidIn)
    ensures InStep(rc.grid, BeforeDrain(rc, w, bar), paidIn)
    ensures var g := BeforeDrain(rc, w, bar).g; g.anchor.None? ==> g.sessionUnrealized == 0.0
  {
    InStepSurvives(rc.grid, w, paidIn);
    BeforeDrainSurvives(rc, w, bar, {}, paidIn);
    InStepSurvives(rc.grid, BeforeDrain(rc, w, bar), paidIn);
    hide BeforeDrain, Surviving, InStep;
  }
}
