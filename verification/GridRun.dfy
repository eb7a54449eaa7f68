/** The main results on whole backtest runs: agreement of the three copies, exposure, and which levels a trim keeps. */
module GridRun {
  import opened Market
  import opened Ladder
  import opened Rounding
  import opened GridModel
  import opened BrokerModel
  import opened RunnerModel
  import opened MarketData
  import opened Books
  import opened Agreement
  import opened DrainAgreement
  import opened StepAgreement
  import opened Quiescence

  // ---- Bounded exposure

  /** The levels above the anchor that hold a live side. */
  function HeldAbove(g: Grid): set<int>
    requires g.anchor.Some?
  {
    set k | k in g.filled && k.level > Cents(g.anchor.value) :: k.level
  }

  function HeldBelow(g: Grid): set<int>
    requires g.anchor.Some?
  {
    set k | k in g.filled && k.level < Cents(g.anchor.value) :: k.level
  }

  /** Live levels: at most `ahead` on the side price has moved to, at most `behind` on the other. */
  ghost predicate Exposure(c: GridConfig, g: Grid) {
    if g.anchor.None? then g.filled == {}
    else if g.price >= g.anchor.value then |HeldAbove(g)| <= c.ahead && |HeldBelow(g)| <= c.behind
    else |HeldAbove(g)| <= c.behind && |HeldBelow(g)| <= c.ahead
  }

  lemma {:induction false} ActiveComplete(order: seq<int>, filled: set<Key>, k: Key)
    requires k in filled && k.level in order
    ensures k.level in ActiveAmong(order, filled)
  {
    var init, last := order[..|order|-1], order[|order|-1];
    assert order == init + [last];
    if last == k.level {
      assert k in KeysAt(filled, last);
    } else {
      ActiveComplete(init, filled, k);
    }
  }

  lemma {:induction false} FewElements(s: seq<int>)
    ensures |Elements(s)| <= |s|
  {
    if s == [] {
      assert Elements(s) == {};
    } else {
      FewElements(s[..|s|-1]);
      assert s == s[..|s|-1] + [s[|s|-1]];
      assert Elements(s) == Elements(s[..|s|-1]) + {s[|s|-1]};
    }
  }

  lemma SubsetSize<T>(a: set<T>, b: set<T>)
    requires a <= b
    ensures |a| <= |b|
  {
    assert b == a + (b - a);
  }

  /** Levels that are in a list but not in its tail beyond the cap are few. */
  lemma HeldAreFew(held: set<int>, ranked: seq<int>, cap: nat)
    requires forall x :: x in held ==> x in ranked && x !in Drop(ranked, cap)
    ensures |held| <= cap
  {
    var head := Take(ranked, cap);
    forall x | x in held ensures x in Elements(head) {
      var i :| 0 <= i < |ranked| && ranked[i] == x;
      if |ranked| > cap {
        assert forall j :: cap <= j < |ranked| ==> Drop(ranked, cap)[j - cap] == ranked[j];
      }
    }
    FewElements(head);
    SubsetSize(held, Elements(head));
  }

  lemma ActiveSidesComplete(g: Grid, k: Key)
    requires g.anchor.Some? && k in g.filled && k.level in g.fillOrder
    ensures k.level > Cents(g.anchor.value) ==> k.level in ActiveAbove(g)
    ensures k.level < Cents(g.anchor.value) ==> k.level in ActiveBelow(g)
  {
    var active, anchor := ActiveLevels(g), Cents(g.anchor.value);
    ActiveComplete(g.fillOrder, g.filled, k);
    AboveIsAbove(active, anchor);
    BelowIsBelow(active, anchor);
    NearestSame(Above(active, anchor), g.price);
    NearestSame(Below(active, anchor), g.price);
  }

  /** Once the marked keys of a grid that is within its caps are closed, what is left is within them. */
  lemma MarkedGoneIsBounded(c: GridConfig, g: Grid, g': Grid, orders: set<Key>, sigs: seq<Signal>)
    requires SidesOk(c, g, orders, sigs) && SessionOk(g) && (g.anchor.Some? && g.active ==> WithinCaps(c, g))
    requires g'.filled == g.filled - g.pendingClose && g'.anchor == g.anchor && g'.price == g.price
    ensures Exposure(c, g')
  {
    if g.anchor.None? || !g.active {
      assert g'.filled == {};
      if g.anchor.Some? {
        assert HeldAbove(g') == {} && HeldBelow(g') == {};
      }
    } else {
      forall x | x in HeldAbove(g') ensures x in ActiveAbove(g) && x !in Drop(ActiveAbove(g), CapAbove(c, g)) {
        var k :| k in g'.filled && k.level == x;
        ActiveSidesComplete(g, k);
        assert x !in g.retired;
      }
      forall x | x in HeldBelow(g') ensures x in ActiveBelow(g) && x !in Drop(ActiveBelow(g), CapBelow(c, g)) {
        var k :| k in g'.filled && k.level == x;
        ActiveSidesComplete(g, k);
        assert x !in g.retired;
      }
      HeldAreFew(HeldAbove(g'), ActiveAbove(g), CapAbove(c, g));
      HeldAreFew(HeldBelow(g'), ActiveBelow(g), CapBelow(c, g));
    }
  }

  function SidesOf(levels: set<int>): set<Key> {
    set x, side | x in levels && side in {Long, Short} :: Key(x, side)
  }

  lemma {:induction false} TwoSidesEach(levels: set<int>)
    ensures |SidesOf(levels)| <= 2 * |levels|
  {
    if x :| x in levels {
      TwoSidesEach(levels - {x});
      assert SidesOf(levels) == SidesOf(levels - {x}) + {Key(x, Long), Key(x, Short)};
    } else {
      assert SidesOf(levels) == {};
    }
  }

  lemma FewFilled(c: GridConfig, g: Grid)
    requires g.anchor.Some? && Exposure(c, g)
    ensures |g.filled| <= 2 * (c.ahead + c.behind + 1)
  {
    var above, below, anchor := HeldAbove(g), HeldBelow(g), {Cents(g.anchor.value)};
    var levels := above + below + anchor;
    forall k | k in g.filled ensures k in SidesOf(levels) {
      assert k.side == Long || k.side == Short;
      assert k.level in levels && k == Key(k.level, k.side);
    }
    SubsetSize(g.filled, SidesOf(levels));
    TwoSidesEach(levels);
    UnionSize(above, below);
    UnionSize(above + below, anchor);
  }

  lemma UnionSize(a: set<int>, b: set<int>)
    ensures |a + b| <= |a| + |b|
  {
  }

  // ---- One step

  /** What holds between steps of every run. */
  ghost predicate Between(c: GridConfig, w: World, paidIn: real) {
    InStep(c, w, paidIn) && Exposure(c, w.g)
  }

  lemma StepTheorem(rc: RunConfig, w: World, bars: seq<Bar>, paidIn: real)
    requires bars != [] && InStep(rc.grid, w, paidIn) && Enumerates(rc) && Sane(rc.grid)
    ensures Between(rc.grid, GridStep(rc, w, bars), paidIn)
    ensures !Drain(rc, BeforeDrain(rc, w, bars[|bars|-1]), bars).dropped
    ensures Drain(rc, BeforeDrain(rc, w, bars[|bars|-1]), bars).processed <= 3 + 2 * (rc.grid.ahead + rc.grid.behind)
  {
    var bar := bars[|bars|-1];
    BeforeDrainKeepsAgreement(rc, w, bar, paidIn);
    var w1 := BeforeDrain(rc, w, bar);
    DrainQuiesces(rc, w1, bars, paidIn);
    AskKeeps(rc, w1, bars, paidIn);
    hide Ask, ProcessSignal, BeforeDrain;
    var (w2, s) := Ask(rc, w1, bars);
    DrainKeeps(rc, w2, bars, s, 0, paidIn);
    var w3 := Drain(rc, w1, bars).w;
    TrimRestores(rc, w3, bar, paidIn);
    MarkedGoneIsBounded(rc.grid, w3.g, HandleLevelsToClose(rc, w3, bar).g, w3.om.Keys, []);
  }

  // ---- Whole runs

  lemma StartTheorem(c: GridConfig, capital: real)
    ensures Between(c, InitialWorld(capital), capital)
  {
  }

  /** Between any two steps of any replay the copies agree and exposure is bounded. */
  lemma {:induction false} RunTheorem(rc: RunConfig, capital: real, bars: seq<Bar>, count: nat, n: nat)
    requires 1 <= count && count + n <= |bars| && Enumerates(rc) && Sane(rc.grid)
    ensures Between(rc.grid, Replay(rc, capital, bars, count, n), capital)
  {
    hide GridStep;
    if n == 0 {
      StartTheorem(rc.grid, capital);
    } else {
      RunTheorem(rc, capital, bars, count, n - 1);
      StepTheorem(rc, Replay(rc, capital, bars, count, n - 1), Visible(bars, count + n - 1, count), capital);
    }
  }

  /** The runner's maps are bijections onto the broker's lists, keyed by the strategy's sides. */
  ghost predicate MapsAgree(w: World) {
    // the trade map is a bijection onto the open trades, keyed by the filled sides
    && w.tm.Keys == w.g.filled && Injective(w.tm) && |w.tm| == |w.b.openTrades|
    && (forall t :: t in w.b.openTrades ==> t.gridKey.Some? && t.gridKey.value in w.tm && w.tm[t.gridKey.value] == t.id)
    && (forall k :: k in w.tm ==> exists t :: t in w.b.openTrades && t.id == w.tm[k] && t.gridKey == Some(k))
    // the order map is a bijection onto the pending orders, keyed by placed sides
    && w.om.Keys <= w.g.placed && Injective(w.om) && |w.om| == |w.b.pending|
    && (forall p :: p in w.b.pending ==> p.gridKey.Some? && p.gridKey.value in w.om && w.om[p.gridKey.value] == p.id)
    && (forall k :: k in w.om ==> exists p :: p in w.b.pending && p.id == w.om[k] && p.gridKey == Some(k))
    // no side is both placed and filled, no retired level holds anything, and no trim is left to do
    && w.g.placed !! w.g.filled
    && (forall k :: k in w.tm || k in w.om ==> k.level !in w.g.retired)
    && w.g.pendingClose == {}
  }

  /** Three-way agreement: the strategy's sides too are what the maps say, and nothing is left over. */
  ghost predicate ThreeWay(w: World) {
    && MapsAgree(w)
    // placed without an order only at retired levels, which hold nothing
    && (forall k :: k in w.g.placed && k !in w.om ==> k.level in w.g.retired)
    && w.g.queue == [] && !w.g.closing
  }

  /** With the level caps, at most 2 * (ahead + behind + 1) trades are open. */
  lemma FewOpenTrades(c: GridConfig, w: World)
    requires MapsAgree(w) && Exposure(c, w.g)
    ensures |w.b.openTrades| <= 2 * (c.ahead + c.behind + 1)
  {
    assert |w.tm.Keys| == |w.tm|;
    if w.g.anchor.Some? {
      FewFilled(c, w.g);
    }
    hide HeldAbove, HeldBelow;
  }

  lemma InverseIsBijection<T>(m: map<Key, nat>, es: seq<Booked<T>>)
    requires Distinct(es) && Inverse(m, Tickets(es))
    ensures Injective(m) && |m| == |es|
    ensures forall e :: e in es ==> e.gridKey.Some? && e.gridKey.value in m && m[e.gridKey.value] == e.id
    ensures forall k :: k in m ==> exists e :: e in es && e.id == m[k] && e.gridKey == Some(k)
  {
    TicketsAre(es);
    InverseCount(m, Tickets(es));
    forall k1, k2 | k1 in m && k2 in m && m[k1] == m[k2] ensures k1 == k2 {
      assert Tickets(es)[m[k1]] == Some(k1) && Tickets(es)[m[k2]] == Some(k2);
    }
    forall k | k in m ensures exists e :: e in es && e.id == m[k] && e.gridKey == Some(k) {
      assert m[k] in Ids(es);
      var e :| e in es && e.id == m[k];
      assert Tickets(es)[e.id] == e.gridKey;
    }
  }

  /** Main result: after every step of every run the strategy, the runner and the broker tell the same story. */
  lemma ThreeWayAgreement(rc: RunConfig, capital: real, bars: seq<Bar>, count: nat, n: nat)
    requires 1 <= count && count + n <= |bars| && Enumerates(rc) && Sane(rc.grid)
    ensures ThreeWay(Replay(rc, capital, bars, count, n))
  {
    hide Replay;
    RunTheorem(rc, capital, bars, count, n);
    AgreementIsThreeWay(rc.grid, Replay(rc, capital, bars, count, n), capital);
  }

  lemma AgreementIsThreeWay(c: GridConfig, w: World, paidIn: real)
    requires InStep(c, w, paidIn)
    ensures ThreeWay(w)
  {
    InStepSurvives(c, w, paidIn);
    SurvivingMapsAgree(c, w, {}, paidIn);
  }

  /** What is left of the agreement in any run. */
  lemma SurvivingMapsAgree(c: GridConfig, w: World, lost: set<Key>, paidIn: real)
    requires Surviving(c, w, lost, paidIn) && w.g.pendingClose == {}
    ensures MapsAgree(w)
  {
    InverseIsBijection(w.tm, w.b.openTrades);
    InverseIsBijection(w.om, w.b.pending);
  }

  // ---- The trim

  /** Every level a trim retires is at least as far from price as every level it keeps on that side. */
  lemma TrimKeepsNearest(c: GridConfig, g: Grid, kept: int, gone: int)
    requires g.anchor.Some?
    requires gone !in g.retired && gone in Trim(c, g).retired && kept !in Trim(c, g).retired
    requires kept in ActiveLevels(g)
    requires (kept > Cents(g.anchor.value) && gone > Cents(g.anchor.value))
          || (kept < Cents(g.anchor.value) && gone < Cents(g.anchor.value))
    ensures Dist(kept, g.price) <= Dist(gone, g.price)
  {
    var anchor, active := Cents(g.anchor.value), ActiveLevels(g);
    var above, below := ActiveAbove(g), ActiveBelow(g);
    TrimSpareAnchor(g);
    AboveIsAbove(active, anchor);
    BelowIsBelow(active, anchor);
    NearestSame(Above(active, anchor), g.price);
    NearestSame(Below(active, anchor), g.price);
    NearestFirstIsSorted(Above(active, anchor), g.price);
    NearestFirstIsSorted(Below(active, anchor), g.price);
    var g1 := RetireAll(g, Drop(above, CapAbove(c, g)));
    RetireAllExact(g, Drop(above, CapAbove(c, g)));
    RetireAllExact(g1, Drop(below, CapBelow(c, g)));
    if kept > anchor {
      assert kept in above;
      assert gone in Drop(above, CapAbove(c, g)) by {
        assert gone in Drop(below, CapBelow(c, g)) ==> gone in below;
      }
      RankedApart(above, CapAbove(c, g), kept, gone, g.price);
    } else {
      assert kept in below;
      assert gone in Drop(below, CapBelow(c, g)) by {
        assert gone in Drop(above, CapAbove(c, g)) ==> gone in above;
      }
      RankedApart(below, CapBelow(c, g), kept, gone, g.price);
    }
  }

  lemma RankedApart(ranked: seq<int>, cap: nat, kept: int, gone: int, price: real)
    requires SortedByDist(ranked, price) && kept in ranked && kept !in Drop(ranked, cap) && gone in Drop(ranked, cap)
    ensures Dist(kept, price) <= Dist(gone, price)
  {
  }
}
