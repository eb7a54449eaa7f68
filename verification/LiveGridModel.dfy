/**
 The sliding grid driven by the live engine: the strategy hears what the engine tells it, and what it answers is what
 the engine handles.
 */
module LiveGridModel {
  import opened Market
  import opened GridModel
  import E = EngineModel

  datatype Pair = Pair(e: E.Engine, g: Grid)

  // ---- What the strategy hears

  function Hear(g: Grid, event: E.Event): Grid {
    match event
    case TellFilled(k, _) => ReportFill(g, k)
    case TellClosed(k, pnl, _) => ReportClosed(g, k, pnl)
    case TellRejected(k) => OnRejected(g, k)
    case TellUnrealized(pnl) => UpdateUnrealized(g, pnl)
    case TellRealized(session, daily) => SetRealized(g, session, daily)
    case TellComplete => NotifyComplete(g)
    case _ => g
  }

  function HearAll(g: Grid, events: seq<E.Event>): Grid {
    if events == [] then g else Hear(HearAll(g, events[..|events|-1]), events[|events|-1])
  }

  /** What the strategy hears while the desk goes from `d` to `d'`. */
  function HearNew(g: Grid, d: E.Desk, d': E.Desk): Grid {
    if d.trace <= d'.trace then HearAll(g, d'.trace[|d.trace|..]) else g
  }

  // ---- The poll

  /** The keys to be closed are taken from the strategy once the fills and closures of the snapshot were reported. */
  function PollPair(c: E.EngineConfig, w: Pair, p: E.PollAnswers): Pair {
    var d := E.Log(w.e.desk, E.ReadTrades(E.CountOf(p.open)));
    if p.open.None? then Pair(w.e.(desk := d), w.g)
    else
      var d1 := E.Reconcile(c, d, p.open.value, w.e.lastPrice, p);
      var g1 := HearNew(w.g, d, d1);
      var d2 := E.TrimLevels(d1, c.order(g1.pendingClose), p.closes);
      Pair(w.e.(desk := d2), HearNew(g1.(pendingClose := {}), d1, d2))
  }

  // ---- The strategy cycle

  /** What the outside answers in a cycle. */
  datatype GridCycle = GridCycle(bars: seq<Bar>, summary: Option<E.Summary>, today: string, openCount: Option<nat>,
                                 handling: nat -> E.SignalAnswers)

  /** At most `n` calls of the strategy, up to the first that answers nothing or a close-all. */
  function Asks(gc: GridConfig, g: Grid, bars: seq<Bar>, n: nat): (Grid, seq<Signal>)
    decreases n
  {
    if n == 0 then (g, [])
    else
      var (g1, s) := Generate(gc, g, bars);
      if s.None? then (g1, [])
      else if s.value.CloseAll? then (g1, [s.value])
      else
        var (g2, rest) := Asks(gc, g1, bars, n - 1);
        (g2, [s.value] + rest)
  }

  lemma AsksOne(gc: GridConfig, g: Grid, bars: seq<Bar>, n: nat)
    requires n > 0
    ensures var (g1, s) := Generate(gc, g, bars);
      Asks(gc, g, bars, n) ==
        if s.None? then (g1, []) else if s.value.CloseAll? then (g1, [s.value])
        else (Asks(gc, g1, bars, n - 1).0, [s.value] + Asks(gc, g1, bars, n - 1).1)
  {
    hide Generate;
  }

  function LatestClose(bars: seq<Bar>): Option<real> {
    if bars == [] then None else Some(bars[|bars|-1].close)
  }

  /** The engine sees an anchor if the strategy has one after its first answer. */
  function StartOf(c: E.EngineConfig, gc: GridConfig, w: Pair, y: GridCycle): E.CycleAnswers {
    var start := E.CycleAnswers(LatestClose(y.bars), y.summary, y.today, false);
    var told := HearNew(w.g, w.e.desk, E.StartCycle(c, w.e, start).0.desk);
    start.(anchored := Generate(gc, told, y.bars).0.anchor.Some?)
  }

  function HandleOne(c: E.EngineConfig, w: Pair, s: Signal, a: E.SignalAnswers): Pair {
    var e := E.ProcessSignal(c, w.e, E.Wanted(s, None), a);
    Pair(e, HearNew(w.g, w.e.desk, e.desk))
  }

  function HandlingAt(y: GridCycle, i: nat): E.SignalAnswers
    requires y.bars != [] && y.openCount.Some?
  {
    y.handling(i).(close := y.bars[|y.bars|-1].close, openCount := y.openCount.value)
  }

  function HandleAll(c: E.EngineConfig, w: Pair, sigs: seq<Signal>, y: GridCycle): Pair
    requires y.bars != [] && y.openCount.Some?
  {
    if sigs == [] then w
    else HandleOne(c, HandleAll(c, w, sigs[..|sigs|-1], y), sigs[|sigs|-1], HandlingAt(y, |sigs| - 1))
  }

  function CyclePair(c: E.EngineConfig, gc: GridConfig, w: Pair, y: GridCycle): Pair {
    var (e1, goes) := E.StartCycle(c, w.e, StartOf(c, gc, w, y));
    var g1 := HearNew(w.g, w.e.desk, e1.desk);
    if !goes then Pair(e1, g1)
    else
      var (g2, sigs) := Asks(gc, g1, y.bars, E.MAX_DRAIN + 1);
      if y.openCount.None? || y.bars == [] then Pair(e1, g2) else HandleAll(c, Pair(e1, g2), sigs, y)
  }

  // ---- The loop

  datatype GridTurn = GridTurn(poll: E.PollAnswers, cycle: Option<GridCycle>)

  function TurnPair(c: E.EngineConfig, gc: GridConfig, w: Pair, t: GridTurn): Pair {
    var w1 := PollPair(c, w, t.poll);
    if t.cycle.Some? then CyclePair(c, gc, w1, t.cycle.value) else w1
  }

  function LoopPair(c: E.EngineConfig, gc: GridConfig, w: Pair, turns: seq<GridTurn>): Pair {
    if turns == [] then w
    else
      var w1 := LoopPair(c, gc, w, turns[..|turns|-1]);
      if w1.e.breaker.running then TurnPair(c, gc, w1, turns[|turns|-1]) else w1
  }

  function StartPair(c: E.EngineConfig, seed: Option<real>, today: string): Pair {
    Pair(E.Started(c, seed, today), InitialGrid)
  }

  // ---- The engine's half is a loop of the engine

  /** The poll as the engine sees it. */
  function PollOf(c: E.EngineConfig, w: Pair, p: E.PollAnswers): E.PollAnswers {
    if p.open.None? then p
    else
      var d := E.Log(w.e.desk, E.ReadTrades(E.CountOf(p.open)));
      var d1 := E.Reconcile(c, d, p.open.value, w.e.lastPrice, p);
      p.(levels := c.order(HearNew(w.g, d, d1).pendingClose))
  }

  /** The signals that the strategy answers in a cycle. */
  function SignalsOf(c: E.EngineConfig, gc: GridConfig, w: Pair, y: GridCycle): seq<Signal> {
    var e1 := E.StartCycle(c, w.e, StartOf(c, gc, w, y)).0;
    Asks(gc, HearNew(w.g, w.e.desk, e1.desk), y.bars, E.MAX_DRAIN + 1).1
  }

  function Offered(sigs: seq<Signal>): nat -> Option<E.Wanted> {
    (i: nat) => if i < |sigs| then Some(E.Wanted(sigs[i], None)) else None
  }

  function CycleOf(c: E.EngineConfig, gc: GridConfig, w: Pair, y: GridCycle): E.CycleCall {
    E.CycleCall(StartOf(c, gc, w, y), Offered(SignalsOf(c, gc, w, y)), y.openCount, y.handling)
  }

  function TurnOf(c: E.EngineConfig, gc: GridConfig, w: Pair, t: GridTurn): E.Turn {
    E.Turn(PollOf(c, w, t.poll),
           if t.cycle.Some? then Some(CycleOf(c, gc, PollPair(c, w, t.poll), t.cycle.value)) else None)
  }

  function TurnsOf(c: E.EngineConfig, gc: GridConfig, w: Pair, turns: seq<GridTurn>): (r: seq<E.Turn>)
    ensures |r| == |turns|
  {
    if turns == [] then []
    else
      var init := turns[..|turns|-1];
      TurnsOf(c, gc, w, init) + [TurnOf(c, gc, LoopPair(c, gc, w, init), turns[|turns|-1])]
  }

  /** The signals of a drain: entries, and a close-all at most as the last. */
  ghost predicate Drained(sigs: seq<Signal>) {
    forall i :: 0 <= i < |sigs| - 1 ==> sigs[i].Entry?
  }

  lemma {:induction false} AsksAreDrained(gc: GridConfig, g: Grid, bars: seq<Bar>, n: nat)
    ensures var sigs := Asks(gc, g, bars, n).1;
      |sigs| <= n && Drained(sigs)
    decreases n
  {
    if n > 0 {
      hide Generate;
      var (g1, s) := Generate(gc, g, bars);
      if s.Some? && s.value.Entry? {
        AsksAreDrained(gc, g1, bars, n - 1);
      }
    }
  }

  function AsWanted(sigs: seq<Signal>, i: nat): seq<E.Wanted>
    requires i <= |sigs|
  {
    seq(|sigs| - i, j requires 0 <= j < |sigs| - i => E.Wanted(sigs[i + j], None))
  }

  lemma {:induction false} CollectsOffered(sigs: seq<Signal>, i: nat)
    requires i <= |sigs| <= E.MAX_DRAIN + 1 && Drained(sigs)
    ensures E.Collect(Offered(sigs), i) == AsWanted(sigs, i)
    decreases |sigs| - i
  {
    if i < |sigs| {
      CollectsOffered(sigs, i + 1);
      assert AsWanted(sigs, i) == [E.Wanted(sigs[i], None)] + AsWanted(sigs, i + 1);
      if sigs[i].CloseAll? {
        assert i == |sigs| - 1;
      }
    }
  }

  lemma {:induction false} HandlesAll(c: E.EngineConfig, w: Pair, sigs: seq<Signal>, ws: seq<E.Wanted>, y: GridCycle,
                                      call: E.CycleCall)
    requires y.bars != [] && y.openCount.Some? && call.start.close == LatestClose(y.bars)
    requires call.openCount == y.openCount && call.handling == y.handling
    requires |ws| == |sigs| && forall j :: 0 <= j < |sigs| ==> ws[j] == E.Wanted(sigs[j], None)
    ensures HandleAll(c, w, sigs, y).e == E.ProcessAll(c, w.e, ws, call)
  {
    if sigs != [] {
      hide E.ProcessSignal, HearNew;
      HandlesAll(c, w, sigs[..|sigs|-1], ws[..|ws|-1], y, call);
      assert HandlingAt(y, |sigs| - 1) == E.AnswersAt(call, |sigs| - 1);
    }
  }

  lemma PollPlays(c: E.EngineConfig, w: Pair, p: E.PollAnswers)
    ensures PollPair(c, w, p).e == w.e.(desk := E.FastPoll(c, w.e.desk, w.e.lastPrice, PollOf(c, w, p)))
  {
    hide HearNew, E.CheckLimitFills, E.CheckClosures, E.TrimLevels;
  }

  lemma CyclePlays(c: E.EngineConfig, gc: GridConfig, w: Pair, y: GridCycle)
    ensures CyclePair(c, gc, w, y).e == E.StrategyCycle(c, w.e, CycleOf(c, gc, w, y))
  {
    hide HearNew, StartOf, Asks, E.ProcessAll, HandleAll, E.Collect;
    var call := CycleOf(c, gc, w, y);
    var (e1, goes) := E.StartCycle(c, w.e, call.start);
    StartCloses(c, gc, w, y);
    var g1 := HearNew(w.g, w.e.desk, e1.desk);
    var (g2, sigs) := Asks(gc, g1, y.bars, E.MAX_DRAIN + 1);
    AsksAreDrained(gc, g1, y.bars, E.MAX_DRAIN + 1);
    CollectsOffered(sigs, 0);
    if goes && y.openCount.Some? {
      HandlesAll(c, Pair(e1, g2), sigs, AsWanted(sigs, 0), y, call);
      NothingToHandle(c, Pair(e1, g2), y);
    }
  }

  lemma NothingToHandle(c: E.EngineConfig, w: Pair, y: GridCycle)
    requires y.bars != [] && y.openCount.Some?
    ensures HandleAll(c, w, [], y) == w
  {
  }

  lemma StartCloses(c: E.EngineConfig, gc: GridConfig, w: Pair, y: GridCycle)
    ensures StartOf(c, gc, w, y).close == LatestClose(y.bars)
    ensures E.StartCycle(c, w.e, StartOf(c, gc, w, y)).1 ==> y.bars != []
  {
    hide Generate, HearNew;
  }

  lemma TurnPlays(c: E.EngineConfig, gc: GridConfig, w: Pair, t: GridTurn)
    ensures TurnPair(c, gc, w, t).e == E.TakeTurn(c, w.e, TurnOf(c, gc, w, t))
  {
    hide PollPair, CyclePair, E.FastPoll, E.StrategyCycle, CycleOf, PollOf;
    PollPlays(c, w, t.poll);
    if t.cycle.Some? {
      CyclePlays(c, gc, PollPair(c, w, t.poll), t.cycle.value);
    }
  }

  /** The engine's half of every run of the pair is a loop of the engine, so what holds of every loop holds of it. */
  lemma {:induction false} PairPlays(c: E.EngineConfig, gc: GridConfig, w: Pair, turns: seq<GridTurn>)
    ensures LoopPair(c, gc, w, turns).e == E.Loop(c, w.e, TurnsOf(c, gc, w, turns))
  {
    if turns != [] {
      hide TurnPair, TurnOf, E.TakeTurn;
      var init := turns[..|turns|-1];
      PairPlays(c, gc, w, init);
      TurnPlays(c, gc, LoopPair(c, gc, w, init), turns[|turns|-1]);
      var all := TurnsOf(c, gc, w, turns);
      assert all[..|all|-1] == TurnsOf(c, gc, w, init);
    }
  }
}
