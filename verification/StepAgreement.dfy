/** Trims, whole steps and whole runs keep the three copies in step. */
module StepAgreement {
  import opened Market
  import opened GridModel
  import opened BrokerModel
  import opened RunnerModel
  import opened Books
  import opened BrokerProofs
  import opened Agreement
  import opened DrainAgreement

  /** The trim walks exactly the keys it was given. */
  ghost predicate Enumerates(rc: RunConfig) {
    && rc.enumerate({}) == []
    && (forall s: set<Key>, k: Key :: k in rc.enumerate(s) <==> k in s)
  }

  /** The state after the keys `done` of the trim were walked. */
  ghost predicate Trimmed(w0: World, w: World, done: set<Key>, paidIn: real) {
    && Sound(w, paidIn)
    && w.om.Keys == w0.om.Keys - done
    && w.g.filled == w0.g.filled - done
    && w.g == w0.g.(filled := w.g.filled, stopped := w.g.stopped,
                    sessionRealized := w.g.sessionRealized, dailyRealized := w.g.dailyRealized)
  }

  /** The state once the order at a key is cancelled. */
  ghost function Cancelled(w: World, k: Key): World
    requires k in w.om
  {
    w.(om := w.om - {k}, b := w.b.(pending := RemoveById(w.b.pending, w.om[k])))
  }

  lemma CancelAtKey(w: World, k: Key, paidIn: real)
    requires Sound(w, paidIn) && k in w.om
    ensures Sound(Cancelled(w, k), paidIn)
  {
    var id := w.om[k];
    TicketsAre(w.b.pending);
    assert id in Ids(w.b.pending);
    var p :| p in w.b.pending && p.id == id;
    RemovePending(w.b, p, paidIn);
    InverseRemove(w.om, Tickets(w.b.pending), k);
  }

  /** What walking one key does: its order is gone, and its live trade, if any, is closed and reported. */
  ghost predicate Walked(w: World, w': World, k: Key, paidIn: real) {
    && Sound(w', paidIn) && w'.om.Keys == w.om.Keys - {k}
    && (if k in w.g.filled then exists pnl :: w'.g == ReportClosed(w.g, k, pnl) else w'.g == w.g)
  }

  lemma TradeOfKey(w: World, k: Key, paidIn: real) returns (t: OpenTrade)
    requires Sound(w, paidIn) && k in w.tm
    ensures t in w.b.openTrades && t.id == w.tm[k] && t.gridKey == Some(k) && k in w.g.filled
  {
    TicketsAre(w.b.openTrades);
    assert w.tm[k] in Ids(w.b.openTrades);
    t :| t in w.b.openTrades && t.id == w.tm[k];
  }

  lemma SoundBooks(w: World, paidIn: real)
    requires Sound(w, paidIn)
    ensures BrokerOk(w.b)
  {
  }

  lemma CloseAtKey(rc: RunConfig, w: World, bar: Bar, k: Key, paidIn: real)
    requires Sound(w, paidIn) && k in w.tm && k !in w.om
    ensures Walked(w, TrimKey(rc, w, bar, k), k, paidIn)
  {
    hide TrimKey, Bank, ReportClosed, Sound;
    var id := w.tm[k];
    var t := TradeOfKey(w, k, paidIn);
    SoundBooks(w, paidIn);
    var info := CloseTradeRealizes(rc.broker, w.b, bar, t);
    var b1 := CloseTrade(rc.broker, w.b, bar, id).value;
    LookupLatest(w.b.closed, info);
    CloseKeepsSound(w, b1, t, info, paidIn);
    hide Realized, CloseTrade;
    TrimWithoutOrder(rc, w, bar, k, b1, info);
    assert w.om.Keys - {k} == w.om.Keys;
  }

  lemma TrimWithoutOrder(rc: RunConfig, w: World, bar: Bar, k: Key, b1: Broker, info: ClosedTrade)
    requires k in w.tm && k !in w.om
    requires CloseTrade(rc.broker, w.b, bar, w.tm[k]) == Some(b1) && Lookup(b1.closed, w.tm[k]) == Some(info)
    ensures TrimKey(rc, w, bar, k) == World(ReportClosed(w.g, k, info.pnl), b1, w.tm - {k}, w.om, w.pnls + [info.pnl])
  {
  }

  lemma CancelComesFirst(rc: RunConfig, w: World, bar: Bar, k: Key)
    ensures k in w.om ==> TrimKey(rc, w, bar, k) == TrimKey(rc, Cancelled(w, k), bar, k)
    ensures k !in w.om && k !in w.tm ==> TrimKey(rc, w, bar, k) == w
  {
    hide CloseTrade, RemoveById, Lookup, ReportClosed;
  }

  lemma WalkWithoutOrder(rc: RunConfig, w: World, bar: Bar, k: Key, paidIn: real)
    requires Sound(w, paidIn) && k !in w.om
    ensures Walked(w, TrimKey(rc, w, bar, k), k, paidIn)
  {
    if k in w.tm {
      CloseAtKey(rc, w, bar, k, paidIn);
    } else {
      CancelComesFirst(rc, w, bar, k);
      assert k !in w.g.filled && w.om.Keys - {k} == w.om.Keys;
    }
    hide TrimKey, Sound, ReportClosed;
  }

  lemma WalkOne(rc: RunConfig, w: World, bar: Bar, k: Key, paidIn: real)
    requires Sound(w, paidIn)
    ensures Walked(w, TrimKey(rc, w, bar, k), k, paidIn)
  {
    hide TrimKey, Sound, ReportClosed;
    if k in w.om {
      CancelAtKey(w, k, paidIn);
      CancelComesFirst(rc, w, bar, k);
      WalkWithoutOrder(rc, Cancelled(w, k), bar, k, paidIn);
      assert Cancelled(w, k).om.Keys - {k} == w.om.Keys - {k};
    } else {
      WalkWithoutOrder(rc, w, bar, k, paidIn);
    }
  }

  lemma OneMoreWalked(w0: World, w: World, w': World, done: set<Key>, k: Key, paidIn: real)
    requires Trimmed(w0, w, done, paidIn) && Walked(w, w', k, paidIn)
    requires w.g.placed !! w.g.filled
    ensures Trimmed(w0, w', done + {k}, paidIn)
  {
    hide Sound;
    if k in w.g.filled {
      var pnl :| w'.g == ReportClosed(w.g, k, pnl);
      assert w'.g.placed == w.g.placed;
    }
  }

  lemma {:induction false} TrimKeysKeep(rc: RunConfig, w0: World, bar: Bar, keys: seq<Key>, paidIn: real)
    requires Sound(w0, paidIn)
    ensures Trimmed(w0, TrimKeys(rc, w0, bar, keys), (set k | k in keys), paidIn)
  {
    if keys == [] {
      assert (set k: Key | k in keys) == {};
      assert w0.om.Keys - {} == w0.om.Keys && w0.g.filled - {} == w0.g.filled;
    } else {
      var init, k := keys[..|keys|-1], keys[|keys|-1];
      assert (set x | x in keys) == (set x | x in init) + {k} by {
        assert keys == init + [k];
      }
      TrimKeysKeep(rc, w0, bar, init, paidIn);
      TrimmedIsReady(w0, TrimKeys(rc, w0, bar, init), (set x | x in init), paidIn);
      hide Sound, TrimKey, Trimmed, Walked;
      WalkOne(rc, TrimKeys(rc, w0, bar, init), bar, k, paidIn);
      OneMoreWalked(w0, TrimKeys(rc, w0, bar, init), TrimKeys(rc, w0, bar, keys), (set x | x in init), k, paidIn);
    }
  }

  lemma TrimmedIsReady(w0: World, w: World, done: set<Key>, paidIn: real)
    requires Trimmed(w0, w, done, paidIn)
    ensures Sound(w, paidIn) && w.g.placed !! w.g.filled
  {
  }

  /** The keys that a trim walked are gone from the sides; those that were lost among them are no longer believed. */
  lemma WalkedSides(c: GridConfig, g: Grid, g': Grid, orders: set<Key>, lost: set<Key>)
    requires Sided(c, g, orders, lost)
    requires g' == g.(pendingClose := {}, filled := g.filled - g.pendingClose, stopped := g'.stopped,
                      sessionRealized := g'.sessionRealized, dailyRealized := g'.dailyRealized)
    requires g.pendingClose == {} ==> g' == g
    ensures Sided(c, g', orders - g.pendingClose, lost - g.pendingClose)
  {
    assert orders - g.pendingClose + (lost - g.pendingClose) == orders + lost - g.pendingClose;
    hide Window;
  }

  /** Walking all the keys marked for closing restores the invariant between steps, in any run. */
  lemma TrimSurvives(rc: RunConfig, w: World, bar: Bar, lost: set<Key>, paidIn: real)
    requires Surviving(rc.grid, w, lost, paidIn) && Enumerates(rc)
    ensures var w' := HandleLevelsToClose(rc, w, bar);
      && Surviving(rc.grid, w', lost - w.g.pendingClose, paidIn)
      && w'.g.pendingClose == {} && w'.g.filled == w.g.filled - w.g.pendingClose
      && SameCourse(w.g, w'.g) && w'.g.placed == w.g.placed && w'.g.price == w.g.price
  {
    var marked := w.g.pendingClose;
    var keys := rc.enumerate(marked);
    var w0 := w.(g := w.g.(pendingClose := {}));
    assert (set k | k in keys) == marked;
    TrimKeysKeep(rc, w0, bar, keys, paidIn);
    var w' := TrimKeys(rc, w0, bar, keys);
    if marked == {} {
      assert keys == [];
      assert w' == w0;
    }
    hide TrimKeys, Sound, Sided;
    WalkedSides(rc.grid, w.g, w'.g, w.om.Keys, lost);
  }

  /** The same at the end of a drain that was not cut short. */
  lemma TrimRestores(rc: RunConfig, w: World, bar: Bar, paidIn: real)
    requires Asked(rc.grid, w, None, paidIn) && Enumerates(rc)
    ensures InStep(rc.grid, HandleLevelsToClose(rc, w, bar), paidIn)
    ensures var w' := HandleLevelsToClose(rc, w, bar);
      && w'.g.filled == w.g.filled - w.g.pendingClose
      && SameCourse(w.g, w'.g) && w'.g.placed == w.g.placed && w'.g.price == w.g.price
  {
    assert Surviving(rc.grid, w, {}, paidIn) && !w.g.closing && w.g.queue == [] by {
      assert w.om.Keys + {} == w.om.Keys;
    }
    TrimSurvives(rc, w, bar, {}, paidIn);
    assert {} - w.g.pendingClose == {};
    hide HandleLevelsToClose, Surviving, InStep, Asked;
    InStepSurvives(rc.grid, HandleLevelsToClose(rc, w, bar), paidIn);
  }

  /** A step that the signal cap does not cut short keeps the three copies in step. */
  lemma StepKeepsAgreement(rc: RunConfig, w: World, bars: seq<Bar>, paidIn: real)
    requires bars != [] && InStep(rc.grid, w, paidIn) && Enumerates(rc)
    requires !Drain(rc, BeforeDrain(rc, w, bars[|bars|-1]), bars).dropped
    ensures InStep(rc.grid, GridStep(rc, w, bars), paidIn)
  {
    var bar := bars[|bars|-1];
    BeforeDrainKeepsAgreement(rc, w, bar, paidIn);
    var w1 := BeforeDrain(rc, w, bar);
    AskKeeps(rc, w1, bars, paidIn);
    var (w2, s) := Ask(rc, w1, bars);
    DrainKeeps(rc, w2, bars, s, 0, paidIn);
    TrimRestores(rc, Drain(rc, w1, bars).w, bar, paidIn);
  }
}
