/** The sliding grid anchors before it enters, so the results on sessions hold of it under the live engine. */
module LiveGridSessions {
  import opened Market
  import opened GridModel
  import opened HaltSafety
  import opened LiveGridModel
  import opened LoopRun
  import opened SessionAccounts
  import opened SessionMoney
  import E = EngineModel

  lemma HearsAnchored(g: Grid, event: E.Event)
    requires QueuesAnchored(g)
    ensures QueuesAnchored(Hear(g, event))
  {
  }

  lemma {:induction false} HearsAllAnchored(g: Grid, events: seq<E.Event>)
    requires QueuesAnchored(g)
    ensures QueuesAnchored(HearAll(g, events))
  {
    if events != [] {
      hide Hear, QueuesAnchored;
      HearsAllAnchored(g, events[..|events|-1]);
      HearsAnchored(HearAll(g, events[..|events|-1]), events[|events|-1]);
    }
  }

  lemma HearsNewAnchored(g: Grid, d: E.Desk, d': E.Desk)
    requires QueuesAnchored(g)
    ensures QueuesAnchored(HearNew(g, d, d'))
  {
    hide QueuesAnchored, HearAll;
    if d.trace <= d'.trace {
      HearsAllAnchored(g, d'.trace[|d.trace|..]);
    }
  }

  lemma {:induction false} AsksAnchored(gc: GridConfig, g: Grid, bars: seq<Bar>, n: nat)
    requires QueuesAnchored(g)
    ensures QueuesAnchored(Asks(gc, g, bars, n).0)
    decreases n
  {
    if n > 0 {
      hide Generate, QueuesAnchored;
      GeneratesAnchored(gc, g, bars);
      var (g1, s) := Generate(gc, g, bars);
      if s.Some? && s.value.Entry? {
        AsksAnchored(gc, g1, bars, n - 1);
      }
    }
  }

  lemma {:induction false} HandlesAnchored(c: E.EngineConfig, w: Pair, sigs: seq<Signal>, y: GridCycle)
    requires y.bars != [] && y.openCount.Some? && QueuesAnchored(w.g)
    ensures QueuesAnchored(HandleAll(c, w, sigs, y).g)
  {
    if sigs != [] {
      hide QueuesAnchored, HearNew, E.ProcessSignal;
      HandlesAnchored(c, w, sigs[..|sigs|-1], y);
      var w1 := HandleAll(c, w, sigs[..|sigs|-1], y);
      HearsNewAnchored(w1.g, w1.e.desk, HandleAll(c, w, sigs, y).e.desk);
    }
  }

  lemma PollAnchored(c: E.EngineConfig, w: Pair, p: E.PollAnswers)
    requires QueuesAnchored(w.g)
    ensures QueuesAnchored(PollPair(c, w, p).g)
  {
    hide HearNew, E.Reconcile, E.TrimLevels;
    if p.open.Some? {
      var d := E.Log(w.e.desk, E.ReadTrades(E.CountOf(p.open)));
      var d1 := E.Reconcile(c, d, p.open.value, w.e.lastPrice, p);
      HearsNewAnchored(w.g, d, d1);
      var g1 := HearNew(w.g, d, d1);
      HearsNewAnchored(g1.(pendingClose := {}), d1, E.TrimLevels(d1, c.order(g1.pendingClose), p.closes));
    }
  }

  lemma CycleAnchored(c: E.EngineConfig, gc: GridConfig, w: Pair, y: GridCycle)
    requires QueuesAnchored(w.g)
    ensures QueuesAnchored(CyclePair(c, gc, w, y).g)
  {
    hide HearNew, QueuesAnchored, E.StartCycle, StartOf, Asks, HandleAll;
    var (e1, goes) := E.StartCycle(c, w.e, StartOf(c, gc, w, y));
    var g1 := HearNew(w.g, w.e.desk, e1.desk);
    HearsNewAnchored(w.g, w.e.desk, e1.desk);
    AsksAnchored(gc, g1, y.bars, E.MAX_DRAIN + 1);
    if y.openCount.Some? && y.bars != [] {
      var (g2, sigs) := Asks(gc, g1, y.bars, E.MAX_DRAIN + 1);
      HandlesAnchored(c, Pair(e1, g2), sigs, y);
    }
  }

  lemma {:induction false} RunAnchored(c: E.EngineConfig, gc: GridConfig, w: Pair, turns: seq<GridTurn>)
    requires QueuesAnchored(w.g)
    ensures QueuesAnchored(LoopPair(c, gc, w, turns).g)
  {
    if turns != [] {
      hide QueuesAnchored, PollPair, CyclePair;
      RunAnchored(c, gc, w, turns[..|turns|-1]);
      var w1, t := LoopPair(c, gc, w, turns[..|turns|-1]), turns[|turns|-1];
      PollAnchored(c, w1, t.poll);
      if t.cycle.Some? {
        CycleAnchored(c, gc, PollPair(c, w1, t.poll), t.cycle.value);
      }
    }
  }

  // ---- Turns with anchors

  lemma SameStart(c: E.EngineConfig, e: E.Engine, y: E.CycleAnswers, anchored: bool)
    ensures E.StartCycle(c, e, y.(anchored := anchored)).0.desk == E.StartCycle(c, e, y).0.desk
  {
  }

  lemma TurnAnchors(c: E.EngineConfig, gc: GridConfig, w: Pair, t: GridTurn)
    requires QueuesAnchored(w.g)
    ensures Anchors(TurnOf(c, gc, w, t))
  {
    hide PollPair, PollOf, QueuesAnchored, HearNew, E.StartCycle;
    if t.cycle.Some? {
      PollAnchored(c, w, t.poll);
      CallAnchors(c, gc, PollPair(c, w, t.poll), t.cycle.value);
    }
  }

  lemma CallAnchors(c: E.EngineConfig, gc: GridConfig, w: Pair, y: GridCycle)
    requires QueuesAnchored(w.g)
    ensures var call := CycleOf(c, gc, w, y);
      call.signals(0).Some? && call.signals(0).value.signal.Entry? ==> call.start.anchored
  {
    hide HearNew, QueuesAnchored, E.StartCycle, Generate;
    var start := StartOf(c, gc, w, y);
    SameStart(c, w.e, start, false);
    var g1 := HearNew(w.g, w.e.desk, E.StartCycle(c, w.e, start).0.desk);
    HearsNewAnchored(w.g, w.e.desk, E.StartCycle(c, w.e, start).0.desk);
    GeneratesAnchored(gc, g1, y.bars);
    assert start.(anchored := false) == E.CycleAnswers(LatestClose(y.bars), y.summary, y.today, false);
  }

  lemma {:induction false} TurnsAnchor(c: E.EngineConfig, gc: GridConfig, w: Pair, turns: seq<GridTurn>)
    requires QueuesAnchored(w.g)
    ensures forall t :: t in TurnsOf(c, gc, w, turns) ==> Anchors(t)
  {
    if turns != [] {
      hide QueuesAnchored, TurnOf, LoopPair, Anchors;
      var init := turns[..|turns|-1];
      TurnsAnchor(c, gc, w, init);
      RunAnchored(c, gc, w, init);
      TurnAnchors(c, gc, LoopPair(c, gc, w, init), turns[|turns|-1]);
    }
  }

  // ---- Main results

  /** While no grid is logged the engine that drives a sliding grid holds no order and no trade. */
  lemma GridDeskIsEmptyBetweenGrids(c: E.EngineConfig, gc: GridConfig, seed: Option<real>, today: string,
                                    turns: seq<GridTurn>)
    ensures Bare(LoopPair(c, gc, StartPair(c, seed, today), turns).e)
  {
    hide LoopPair, Bare, E.Loop, TurnsOf, Anchors;
    var w := StartPair(c, seed, today);
    StartIsAnchored(c, seed, today);
    TurnsAnchor(c, gc, w, turns);
    PairPlays(c, gc, w, turns);
    DeskIsEmptyBetweenGrids(c, seed, today, TurnsOf(c, gc, w, turns));
  }

  lemma StartIsAnchored(c: E.EngineConfig, seed: Option<real>, today: string)
    ensures QueuesAnchored(StartPair(c, seed, today).g) && StartPair(c, seed, today).e == E.Started(c, seed, today)
  {
  }

  /**
   Main result: the sessions of a sliding grid partition the result of its run, on every account that starts at rest, as
   long as the cancels and the balance reads that end sessions work.
   */
  lemma GridSessionsPartitionTheRun(c: E.EngineConfig, gc: GridConfig, balance: real, today: string,
                                    turns: seq<GridTurn>,
                                    accounts: seq<Account>)
    requires c.hasSummary
    requires var w := StartPair(c, Some(balance), today);
      var moves := LoopMoves(c, w.e, TurnsOf(c, gc, w, turns));
      && |accounts| == |moves| + 1 && accounts[0] == Account(balance, {}, {})
      && EndWell(c, w.e, moves) && TrueRun(c, w.e, moves, accounts)
    ensures var m := LoopPair(c, gc, StartPair(c, Some(balance), today), turns).e.money;
      && m.sessionStart == Some(balance + TotalPnl(m.history))
      && (!m.gridLogged ==> accounts[|accounts|-1] == Account(balance + TotalPnl(m.history), {}, {}))
  {
    hide LoopPair, LoopMoves, EndWell, TrueRun, E.Loop, TurnsOf, Anchors, E.Started;
    var w := StartPair(c, Some(balance), today);
    StartIsAnchored(c, Some(balance), today);
    TurnsAnchor(c, gc, w, turns);
    PairPlays(c, gc, w, turns);
    SessionsPartitionTheLoop(c, balance, today, TurnsOf(c, gc, w, turns), accounts);
  }
}
