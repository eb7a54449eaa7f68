/** The loop of the live engine is a run of single moves, so what holds of every run holds of the loop. */
module LoopRun {
  import opened Market
  import opened EngineModel
  import opened CloseAllProtocol

  // ---- The moves of a loop

  function SignalMoves(ws: seq<Wanted>, y: CycleCall): (moves: seq<Move>)
    requires y.start.close.Some? && y.openCount.Some?
    ensures |moves| == |ws|
  {
    if ws == [] then []
    else SignalMoves(ws[..|ws|-1], y) + [Handle(ws[|ws|-1], AnswersAt(y, |ws| - 1))]
  }

  function CycleMoves(c: EngineConfig, e: Engine, y: CycleCall): seq<Move> {
    [Begin(y.start)]
    + if StartCycle(c, e, y.start).1 && y.openCount.Some? then SignalMoves(Collect(y.signals, 0), y) else []
  }

  function TurnMoves(c: EngineConfig, e: Engine, t: Turn): seq<Move> {
    [Poll(t.poll)] + if t.cycle.Some? then CycleMoves(c, Step(c, e, Poll(t.poll)), t.cycle.value) else []
  }

  function LoopMoves(c: EngineConfig, e: Engine, turns: seq<Turn>): seq<Move> {
    if turns == [] then []
    else
      var init := turns[..|turns|-1];
      LoopMoves(c, e, init)
      + if Loop(c, e, init).breaker.running then TurnMoves(c, Loop(c, e, init), turns[|turns|-1]) else []
  }

  lemma {:induction false} PlayConcat(c: EngineConfig, e: Engine, first: seq<Move>, second: seq<Move>)
    ensures Play(c, e, first + second) == Play(c, Play(c, e, first), second)
  {
    if second == [] {
      assert first + second == first;
    } else {
      var init, last := second[..|second|-1], second[|second|-1];
      assert (first + second)[..|first + second|-1] == first + init;
      PlayConcat(c, e, first, init);
    }
  }

  lemma PlayOne(c: EngineConfig, e: Engine, m: Move)
    ensures Play(c, e, [m]) == Step(c, e, m)
  {
    assert [m][..0] == [];
  }

  lemma {:induction false} SignalsPlay(c: EngineConfig, e: Engine, ws: seq<Wanted>, y: CycleCall)
    requires y.start.close.Some? && y.openCount.Some?
    ensures Play(c, e, SignalMoves(ws, y)) == ProcessAll(c, e, ws, y)
  {
    if ws != [] {
      hide ProcessSignal;
      var moves := SignalMoves(ws, y);
      SignalsPlay(c, e, ws[..|ws|-1], y);
      assert moves[..|moves|-1] == SignalMoves(ws[..|ws|-1], y);
    }
  }

  lemma CyclePlays(c: EngineConfig, e: Engine, y: CycleCall)
    ensures Play(c, e, CycleMoves(c, e, y)) == StrategyCycle(c, e, y)
  {
    hide StartCycle, Collect, SignalMoves;
    PlayOne(c, e, Begin(y.start));
    var (e1, goes) := StartCycle(c, e, y.start);
    if goes && y.openCount.Some? {
      StartNeedsBars(c, e, y.start);
      SignalsPlay(c, e1, Collect(y.signals, 0), y);
      PlayConcat(c, e, [Begin(y.start)], SignalMoves(Collect(y.signals, 0), y));
    } else {
      assert CycleMoves(c, e, y) == [Begin(y.start)];
    }
  }

  lemma TurnPlays(c: EngineConfig, e: Engine, t: Turn)
    ensures Play(c, e, TurnMoves(c, e, t)) == TakeTurn(c, e, t)
  {
    hide StrategyCycle, FastPoll, CycleMoves;
    PlayOne(c, e, Poll(t.poll));
    if t.cycle.Some? {
      var e1 := Step(c, e, Poll(t.poll));
      CyclePlays(c, e1, t.cycle.value);
      PlayConcat(c, e, [Poll(t.poll)], CycleMoves(c, e1, t.cycle.value));
    } else {
      assert TurnMoves(c, e, t) == [Poll(t.poll)];
    }
  }

  /** Whatever holds of every run of single moves holds of the loop: the loop is the run of its moves. */
  lemma {:induction false} LoopPlays(c: EngineConfig, e: Engine, turns: seq<Turn>)
    ensures Play(c, e, LoopMoves(c, e, turns)) == Loop(c, e, turns)
  {
    if turns != [] {
      hide TakeTurn, TurnMoves;
      var init, t := turns[..|turns|-1], turns[|turns|-1];
      var e1 := Loop(c, e, init);
      LoopPlays(c, e, init);
      if e1.breaker.running {
        TurnPlays(c, e1, t);
        PlayConcat(c, e, LoopMoves(c, e, init), TurnMoves(c, e1, t));
      } else {
        assert LoopMoves(c, e, turns) == LoopMoves(c, e, init);
      }
    }
  }

  /**
   The loop, from its start, for every behaviour of the broker, the strategy and the clock: notified only on a flat
   book, at most five failed close-alls in a row, and stopped means stopped.
   */
  lemma LoopIsSafe(c: EngineConfig, seed: Option<real>, today: string, turns: seq<Turn>)
    ensures var e := Loop(c, Started(c, seed, today), turns);
      && NotifiedFlat(e.desk.trace) && e.breaker.failures <= MAX_CLOSE_ALL_RETRIES
      && (!e.breaker.running ==> forall more :: Loop(c, e, more) == e)
      && (c.hasSummary && seed.None? ==> e == Started(c, seed, today))
  {
    var start := Started(c, seed, today);
    var moves := LoopMoves(c, start, turns);
    LoopPlays(c, start, turns);
    NotifiedOnlyWhenFlat(c, start, moves);
    FailuresAreCounted(c, start, moves);
    var e := Loop(c, start, turns);
    forall more | !e.breaker.running ensures Loop(c, e, more) == e {
      StoppedLoops(c, e, more, 0);
    }
    if !start.breaker.running {
      StoppedLoops(c, start, turns, 0);
    }
  }

  // ---- Entries come with a grid

  /** An entry is handled only while a grid is logged. */
  predicate EntersLogged(e: Engine, m: Move) {
    m.Handle? && m.wanted.signal.Entry? ==> e.money.gridLogged
  }

  ghost predicate Disciplined(c: EngineConfig, e: Engine, moves: seq<Move>) {
    moves == []
    || (Disciplined(c, e, moves[..|moves|-1]) && EntersLogged(Play(c, e, moves[..|moves|-1]), moves[|moves|-1]))
  }

  /** A strategy that answers a cycle with an entry shows an anchor. */
  predicate Anchors(t: Turn) {
    t.cycle.Some? && t.cycle.value.signals(0).Some? && t.cycle.value.signals(0).value.signal.Entry? ==>
    t.cycle.value.start.anchored
  }

  lemma {:induction false} DisciplineConcat(c: EngineConfig, e: Engine, first: seq<Move>, second: seq<Move>)
    requires Disciplined(c, e, first) && Disciplined(c, Play(c, e, first), second)
    ensures Disciplined(c, e, first + second)
  {
    if second == [] {
      assert first + second == first;
    } else {
      var init := second[..|second|-1];
      assert (first + second)[..|first + second|-1] == first + init;
      DisciplineConcat(c, e, first, init);
      PlayConcat(c, e, first, init);
    }
  }

  lemma DisciplineOne(c: EngineConfig, e: Engine, m: Move)
    requires EntersLogged(e, m)
    ensures Disciplined(c, e, [m])
  {
    var moves := [m];
    assert moves[..|moves|-1] == [];
    assert Disciplined(c, e, []) && Play(c, e, []) == e;
  }

  lemma {:induction false} SignalsAreDisciplined(c: EngineConfig, e: Engine, ws: seq<Wanted>, y: CycleCall)
    requires y.start.close.Some? && y.openCount.Some? && e.money.gridLogged
    requires forall i :: 0 <= i < |ws| - 1 ==> ws[i].signal.Entry?
    ensures Disciplined(c, e, SignalMoves(ws, y))
    ensures (ws != [] ==> ws[|ws|-1].signal.Entry?) ==> Play(c, e, SignalMoves(ws, y)).money == e.money
  {
    if ws != [] {
      hide ProcessEntry;
      var moves, init := SignalMoves(ws, y), ws[..|ws|-1];
      SignalsAreDisciplined(c, e, init, y);
      assert moves[..|moves|-1] == SignalMoves(init, y);
    }
  }

  lemma CycleIsDisciplined(c: EngineConfig, e: Engine, y: CycleCall)
    requires y.signals(0).Some? && y.signals(0).value.signal.Entry? ==> y.start.anchored
    ensures Disciplined(c, e, CycleMoves(c, e, y))
  {
    hide StartCycle;
    var first := [Begin(y.start)];
    DisciplineOne(c, e, Begin(y.start));
    PlayOne(c, e, Begin(y.start));
    var (e1, goes) := StartCycle(c, e, y.start);
    if goes && y.openCount.Some? {
      StartNeedsBars(c, e, y.start);
      DrainIsBounded(y.signals, 0);
      var ws := Collect(y.signals, 0);
      if ws != [] && ws[0].signal.CloseAll? {
        assert ws == [ws[0]];
        assert SignalMoves(ws, y) == [Handle(ws[0], AnswersAt(y, 0))];
        DisciplineOne(c, e1, Handle(ws[0], AnswersAt(y, 0)));
      } else if ws != [] {
        GridIsLogged(c, e, y.start);
        SignalsAreDisciplined(c, e1, ws, y);
      }
      DisciplineConcat(c, e, first, SignalMoves(ws, y));
    } else {
      assert CycleMoves(c, e, y) == first;
    }
  }

  lemma GridIsLogged(c: EngineConfig, e: Engine, y: CycleAnswers)
    requires y.anchored && StartCycle(c, e, y).1
    ensures StartCycle(c, e, y).0.money.gridLogged
  {
  }

  lemma TurnIsDisciplined(c: EngineConfig, e: Engine, t: Turn)
    requires Anchors(t)
    ensures Disciplined(c, e, TurnMoves(c, e, t))
  {
    hide FastPoll, CycleMoves;
    DisciplineOne(c, e, Poll(t.poll));
    PlayOne(c, e, Poll(t.poll));
    if t.cycle.Some? {
      var e1 := Step(c, e, Poll(t.poll));
      CycleIsDisciplined(c, e1, t.cycle.value);
      DisciplineConcat(c, e, [Poll(t.poll)], CycleMoves(c, e1, t.cycle.value));
    } else {
      assert TurnMoves(c, e, t) == [Poll(t.poll)];
    }
  }

  /** With such a strategy the loop handles entries only while a grid is logged. */
  lemma {:induction false} LoopIsDisciplined(c: EngineConfig, e: Engine, turns: seq<Turn>)
    requires forall i :: 0 <= i < |turns| ==> Anchors(turns[i])
    ensures Disciplined(c, e, LoopMoves(c, e, turns))
  {
    if turns != [] {
      hide TurnMoves;
      var init, t := turns[..|turns|-1], turns[|turns|-1];
      var e1 := Loop(c, e, init);
      LoopIsDisciplined(c, e, init);
      if e1.breaker.running {
        LoopPlays(c, e, init);
        TurnIsDisciplined(c, e1, t);
        DisciplineConcat(c, e, LoopMoves(c, e, init), TurnMoves(c, e1, t));
      } else {
        assert LoopMoves(c, e, turns) == LoopMoves(c, e, init);
      }
    }
  }
}
