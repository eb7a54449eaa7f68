/**
 The sessions of the live engine against the account itself. That the account is at rest between grids is derived:
 from the cancel and the closes that ended the session, and from the engine placing nothing until the next grid.
 */
module SessionAccounts {
  import opened Market
  import opened EngineModel
  import opened CloseAllProtocol
  import opened LoopRun
  import opened SessionMoney

  // ---- The engine's half: without a grid there is nothing to act on

  /** While no grid is logged no order is tracked and no trade is held. */
  predicate Bare(e: Engine) {
    !e.money.gridLogged ==> e.desk.orders == map[] && e.desk.trades == map[]
  }

  ghost predicate PlacesNothing(d: Desk, d': Desk) {
    && |d.trace| <= |d'.trace|
    && forall i :: |d.trace| <= i < |d'.trace| ==> !d'.trace[i].Place?
  }

  lemma {:induction false} NothingToTrim(d: Desk, keys: seq<Key>, closes: Key -> CloseAnswer)
    requires d.orders == map[] && d.trades == map[]
    ensures TrimLevels(d, keys, closes) == d
  {
    if keys != [] {
      NothingToTrim(d, keys[..|keys|-1], closes);
    }
  }

  /** A poll of an empty desk only reads the open trades. */
  lemma EmptyPoll(c: EngineConfig, d: Desk, lastPrice: Option<real>, p: PollAnswers)
    requires d.orders == map[] && d.trades == map[]
    ensures FastPoll(c, d, lastPrice, p) == Log(d, ReadTrades(CountOf(p.open)))
  {
    NothingToTrim(Log(d, ReadTrades(CountOf(p.open))), p.levels, p.closes);
  }

  lemma {:induction false} ClosesPlaceNothing(d: Desk, open: seq<LiveTrade>, holders: map<nat, Key>,
                                              close: nat -> CloseAnswer)
    ensures var d' := CloseEach(d, open, holders, close);
      && d'.orders == d.orders && d'.trades == d.trades
      && |d'.trace| == |d.trace| + |open| && d'.trace[..|d.trace|] == d.trace && PlacesNothing(d, d')
  {
    if open != [] {
      ClosesPlaceNothing(d, open[..|open|-1], holders, close);
    }
  }

  lemma LogPlacesNothing(d: Desk, d1: Desk, e: Event)
    requires PlacesNothing(d, d1) && !e.Place?
    ensures PlacesNothing(d, Log(d1, e)) && PlacesNothing(d, Log(Cleared(d1), e))
  {
  }

  lemma PlacesNothingChains(d: Desk, d1: Desk, d2: Desk)
    requires PlacesNothing(d, d1) && PlacesNothing(d1, d2) && d2.trace[..|d1.trace|] == d1.trace
    ensures PlacesNothing(d, d2)
  {
    forall i | |d.trace| <= i < |d2.trace| ensures !d2.trace[i].Place? {
      if i < |d1.trace| {
        assert d2.trace[i] == d2.trace[..|d1.trace|][i];
      }
    }
  }

  lemma AttemptPlacesNothing(c: EngineConfig, d: Desk, b: Breaker, a: Attempt)
    ensures var d' := DeskAfterAttempt(c, d, b, a);
      && PlacesNothing(d, d')
      && ((d'.orders == d.orders && d'.trades == d.trades) || (d'.orders == map[] && d'.trades == map[]))
      && (OutcomeOf(b, a) == Flat ==> d'.orders == map[] && d'.trades == map[])
  {
    hide DeskAfterAttempt, OutcomeOf, CloseEach, Holders, FailedCloses, PlacesNothing;
    AttemptCases(c, d, b, a);
    RestIsQuiet(d);
    if Attempted(b, a) {
      var d1 := Log(Log(d, CancelAll), ReadTrades(CountOf(a.open)));
      LogPlacesNothing(d, d, CancelAll);
      LogPlacesNothing(d, Log(d, CancelAll), ReadTrades(CountOf(a.open)));
      LogPlacesNothing(d, d1, TellComplete);
      if a.open.Some? {
        var holders := Holders(d.trades, c.order(d.trades.Keys));
        var d2 := CloseEach(d1, a.open.value, holders, a.close);
        ClosesPlaceNothing(d1, a.open.value, holders, a.close);
        PlacesNothingChains(d, d1, d2);
        LogPlacesNothing(d, d2, ReadTrades(a.remaining));
        var d3 := Log(d2, ReadTrades(a.remaining));
        LogPlacesNothing(d, d3, ReadSummary);
        LogPlacesNothing(d, d3, TellComplete);
        LogPlacesNothing(d, Log(Cleared(d3), ReadSummary), TellComplete);
      }
    }
  }

  lemma RestIsQuiet(d: Desk)
    ensures PlacesNothing(d, d)
  {
  }

  lemma StepKeepsBare(c: EngineConfig, e: Engine, m: Move)
    requires Bare(e) && EntersLogged(e, m)
    ensures Bare(Step(c, e, m))
    ensures !e.money.gridLogged ==> PlacesNothing(e.desk, Step(c, e, m).desk)
  {
    hide FastPoll, DeskAfterAttempt, ProcessEntry, OutcomeOf;
    match m
    case Poll(p) =>
      if !e.money.gridLogged {
        EmptyPoll(c, e.desk, e.lastPrice, p);
      }
    case Begin(y) =>
    case Handle(w, a) =>
      if w.signal.CloseAll? {
        AttemptPlacesNothing(c, e.desk, e.breaker, a.attempt);
      }
  }

  /** In every loop with a strategy that anchors before it enters, the desk is empty whenever no grid is logged. */
  lemma DeskIsEmptyBetweenGrids(c: EngineConfig, seed: Option<real>, today: string, turns: seq<Turn>)
    requires forall i :: 0 <= i < |turns| ==> Anchors(turns[i])
    ensures Bare(Loop(c, Started(c, seed, today), turns))
  {
    var start := Started(c, seed, today);
    LoopPlays(c, start, turns);
    LoopIsDisciplined(c, start, turns);
    RunKeepsBare(c, start, LoopMoves(c, start, turns));
  }

  lemma {:induction false} RunKeepsBare(c: EngineConfig, e: Engine, moves: seq<Move>)
    requires Bare(e) && Disciplined(c, e, moves)
    ensures Bare(Play(c, e, moves))
  {
    hide Step, EntersLogged, Bare;
    if moves != [] {
      RunKeepsBare(c, e, moves[..|moves|-1]);
      StepKeepsBare(c, Play(c, e, moves[..|moves|-1]), moves[|moves|-1]);
    }
  }

  // ---- The account

  /** The account as it really is: its balance, the open trades and the resting orders. */
  datatype Account = Account(balance: real, open: set<nat>, resting: set<nat>)

  predicate AtRest(a: Account) {
    a.open == {} && a.resting == {}
  }

  predicate EndsSession(e: Engine, m: Move) {
    m.Handle? && m.wanted.signal.CloseAll? && OutcomeOf(e.breaker, m.answers.attempt) == Flat
  }

  /**
   What every account does: one at rest stays exactly as it is while nothing is placed, a read tells its balance, and
   after a close-all whose cancel worked and that left no trade it is at rest.
   */
  ghost predicate TrueStep(e: Engine, e': Engine, m: Move, before: Account, after: Account) {
    && (AtRest(before) && PlacesNothing(e.desk, e'.desk) ==> after == before)
    && (m.Begin? && m.cycle.summary.Some? ==> m.cycle.summary.value.balance == before.balance)
    && (EndsSession(e, m) && m.answers.attempt.cancelled ==>
          AtRest(after) && (m.answers.attempt.balance.Some? ==> m.answers.attempt.balance.value == after.balance))
  }

  ghost predicate TrueRun(c: EngineConfig, e: Engine, moves: seq<Move>, accounts: seq<Account>)
    requires |accounts| == |moves| + 1
  {
    var n := |moves|;
    n == 0 || (TrueRun(c, e, moves[..n-1], accounts[..n])
               && TrueStep(Play(c, e, moves[..n-1]), Play(c, e, moves), moves[n-1], accounts[n-1], accounts[n]))
  }

  /** The cancel and the balance read of every session's end work. */
  predicate EndsWell(e: Engine, m: Move) {
    EndsSession(e, m) ==> m.answers.attempt.cancelled && m.answers.attempt.balance.Some?
  }

  ghost predicate EndWell(c: EngineConfig, e: Engine, moves: seq<Move>) {
    moves == [] || (EndWell(c, e, moves[..|moves|-1]) && EndsWell(Play(c, e, moves[..|moves|-1]), moves[|moves|-1]))
  }

  /** Without a grid the account is at rest and the engine's last balance is its balance. */
  ghost predicate Resting(e: Engine, account: Account) {
    && Banked(e.money) && Bare(e)
    && (!e.money.gridLogged ==> AtRest(account) && e.money.last == Some(account.balance))
  }

  lemma StepKeepsResting(c: EngineConfig, e: Engine, m: Move, before: Account, after: Account)
    requires c.hasSummary && Resting(e, before) && EntersLogged(e, m) && EndsWell(e, m)
    requires TrueStep(e, Step(c, e, m), m, before, after)
    ensures Resting(Step(c, e, m), after) && Step(c, e, m).money.runStart == e.money.runStart
  {
    var e' := Step(c, e, m);
    StepKeepsBare(c, e, m);
    StepKeepsBanked(c, e, m);
    if m.Begin? && m.cycle.close.Some? && m.cycle.summary.Some? {
      CycleMovesBaseline(c, e, m.cycle);
    } else if !EndsSession(e, m) {
      OtherMovesKeepMoney(c, e, m);
    }
    hide Banked, Bare, PlacesNothing;
  }

  lemma {:induction false} RunKeepsResting(c: EngineConfig, e: Engine, moves: seq<Move>, accounts: seq<Account>)
    requires |accounts| == |moves| + 1
    requires c.hasSummary && Resting(e, accounts[0])
    requires Disciplined(c, e, moves) && EndWell(c, e, moves) && TrueRun(c, e, moves, accounts)
    ensures Resting(Play(c, e, moves), accounts[|moves|]) && Play(c, e, moves).money.runStart == e.money.runStart
  {
    hide Step, TrueStep, Resting, EntersLogged, EndsWell;
    var n := |moves|;
    if n > 0 {
      assert accounts[..n][0] == accounts[0] && accounts[..n][n-1] == accounts[n-1];
      RunKeepsResting(c, e, moves[..n-1], accounts[..n]);
      StepKeepsResting(c, Play(c, e, moves[..n-1]), moves[n-1], accounts[n-1], accounts[n]);
    }
  }

  /**
   The sessions of every loop partition its result, on every account that starts at rest, as long as the cancels and
   the balance reads that end sessions work; between grids the account is at rest and its balance is the start plus
   all sessions.
   */
  lemma SessionsPartitionTheLoop(c: EngineConfig, balance: real, today: string, turns: seq<Turn>,
                                 accounts: seq<Account>)
    requires var start := Started(c, Some(balance), today);
      var moves := LoopMoves(c, start, turns);
      && |accounts| == |moves| + 1 && accounts[0] == Account(balance, {}, {})
      && EndWell(c, start, moves) && TrueRun(c, start, moves, accounts)
    requires c.hasSummary && forall i :: 0 <= i < |turns| ==> Anchors(turns[i])
    ensures var m := Loop(c, Started(c, Some(balance), today), turns).money;
      && m.sessionStart == Some(balance + TotalPnl(m.history)) && Numbered(m.history)
      && (!m.gridLogged ==> accounts[|accounts|-1] == Account(balance + TotalPnl(m.history), {}, {}))
  {
    hide LoopMoves, TrueRun, EndWell, Started, Resting, Disciplined, Play, Loop, Anchors;
    var start := Started(c, Some(balance), today);
    var moves := LoopMoves(c, start, turns);
    LoopPlays(c, start, turns);
    LoopIsDisciplined(c, start, turns);
    StartRests(c, balance, today);
    RunKeepsResting(c, start, moves, accounts);
    RestingIsPartitioned(Play(c, start, moves), accounts[|moves|], balance);
  }

  lemma StartRests(c: EngineConfig, balance: real, today: string)
    requires c.hasSummary
    ensures var e := Started(c, Some(balance), today);
      Resting(e, Account(balance, {}, {})) && e.money.runStart == Some(balance)
  {
  }

  lemma RestingIsPartitioned(e: Engine, account: Account, balance: real)
    requires Resting(e, account) && e.money.runStart == Some(balance)
    ensures e.money.sessionStart == Some(balance + TotalPnl(e.money.history)) && Numbered(e.money.history)
    ensures !e.money.gridLogged ==> account == Account(balance + TotalPnl(e.money.history), {}, {})
  {
  }

  // ---- A cancel that fails

  const RESTING_ENTRY: Wanted := Wanted(Entry(Key(9000, Long), 1.0, OrderType.Limit, 90.0, 80.0), None)
  const MARKET_ENTRY: Wanted := Wanted(Entry(Key(10000, Long), 1.0, OrderType.Market, 0.0, 90.0), None)
  const LIQUIDATION: Wanted := Wanted(CloseAll("session_loss_limit"), None)

  /** Everything works but the cancel. */
  function UncancelledEnd(): Attempt {
    Attempt(0.0, 0.0, false, Some([LiveTrade(2, Buy, 100.0)]), i => Done(Some(0.0)), Some(0), Some(1000.0), 0.0)
  }

  function Answering(id: nat): SignalAnswers {
    SignalAnswers(100.0, 0, true, Accepted(id, 100.0, false), Refused, UncancelledEnd())
  }

  function Reading(balance: real): Move {
    Begin(CycleAnswers(Some(100.0), Some(Summary(balance, 0.0)), "", true))
  }

  /** An order outlives the session that placed it, fills, and is stopped out before the next grid. */
  function UncancelledRun(): seq<Move> {
    [Reading(1000.0), Handle(RESTING_ENTRY, Answering(1)), Handle(MARKET_ENTRY, Answering(2)),
     Handle(LIQUIDATION, Answering(0)), Reading(990.0)]
  }

  function UncancelledAccounts(): seq<Account> {
    [Account(1000.0, {}, {}), Account(1000.0, {}, {}), Account(1000.0, {}, {1}), Account(1000.0, {2}, {1}),
     Account(990.0, {}, {}), Account(990.0, {}, {})]
  }

  function First(n: nat): seq<Move>
    requires n <= 5
  {
    UncancelledRun()[..n]
  }

  /** One move more of that run. */
  lemma OneMoreMove(c: EngineConfig, e: Engine, n: nat)
    requires n < 5 && Disciplined(c, e, First(n)) && TrueRun(c, e, First(n), UncancelledAccounts()[..n + 1])
    requires var e1, m := Play(c, e, First(n)), UncancelledRun()[n];
      && EntersLogged(e1, m)
      && TrueStep(e1, Step(c, e1, m), m, UncancelledAccounts()[n], UncancelledAccounts()[n + 1])
    ensures Play(c, e, First(n + 1)) == Step(c, Play(c, e, First(n)), UncancelledRun()[n])
    ensures Disciplined(c, e, First(n + 1)) && TrueRun(c, e, First(n + 1), UncancelledAccounts()[..n + 2])
  {
    hide Step, TrueStep, EntersLogged;
    var moves, accounts := First(n + 1), UncancelledAccounts()[..n + 2];
    assert moves[..n] == First(n) && moves[n] == UncancelledRun()[n];
    assert accounts[..n + 1] == UncancelledAccounts()[..n + 1];
  }

  /** What the first three moves leave: a logged grid, its baseline, and one order and one trade placed. */
  lemma SessionUnderWay(c: EngineConfig, s: Engine)
    requires c.hasSummary && c.maxOpenTrades == 0 && s == Started(c, Some(1000.0), "")
    ensures Disciplined(c, s, First(3)) && TrueRun(c, s, First(3), UncancelledAccounts()[..4])
    ensures var e := Play(c, s, First(3));
      && e.money.gridLogged && e.breaker == s.breaker
      && e.money.history == [] && e.money.sessionStart == Some(1000.0) && e.money.runStart == Some(1000.0)
  {
    var e1 := Step(c, s, Reading(1000.0));
    var e2 := Step(c, e1, Handle(RESTING_ENTRY, Answering(1)));
    OneMoreMove(c, s, 0);
    assert e2.desk.trace[|e1.desk.trace|].Place?;
    OneMoreMove(c, s, 1);
    OneMoreMove(c, s, 2);
  }

  lemma UncancelledEndIsFlat(b: Breaker)
    requires b.failures == 0 && b.retryAt == None
    ensures OutcomeOf(b, UncancelledEnd()) == Flat
  {
    assert FailedCloses(1, UncancelledEnd().close) == FailedCloses(0, UncancelledEnd().close);
  }

  /** The fourth move books the balance of 1000, flat but for the order that is still at the broker. */
  lemma UncancelledSessionEnds(c: EngineConfig, s: Engine)
    requires c.hasSummary && c.maxOpenTrades == 0 && s == Started(c, Some(1000.0), "")
    ensures Disciplined(c, s, First(4)) && TrueRun(c, s, First(4), UncancelledAccounts()[..5])
    ensures var m := Play(c, s, First(4)).money;
      Partitioned(m) && !m.gridLogged && m.sessionStart == Some(1000.0)
  {
    SessionUnderWay(c, s);
    var e3 := Play(c, s, First(3));
    UncancelledEndIsFlat(e3.breaker);
    EndKeepsBanked(c, e3.money, "session_loss_limit", UncancelledEnd());
    OneMoreMove(c, s, 3);
  }

  /** So a session end whose cancel failed can break the partition: this run of a true account does. */
  lemma FailedCancelBreaksThePartition(c: EngineConfig)
    requires c.hasSummary && c.maxOpenTrades == 0
    ensures var start := Started(c, Some(1000.0), "");
      && Disciplined(c, start, UncancelledRun()) && TrueRun(c, start, UncancelledRun(), UncancelledAccounts())
      && !Partitioned(Play(c, start, UncancelledRun()).money)
  {
    var s := Started(c, Some(1000.0), "");
    UncancelledSessionEnds(c, s);
    var e4 := Play(c, s, First(4));
    NextGridKeepsPartitionIff(c, e4, Reading(990.0).cycle);
    OneMoreMove(c, s, 4);
    hide Disciplined, TrueRun, Partitioned, Play;
    assert First(5) == UncancelledRun() && UncancelledAccounts()[..6] == UncancelledAccounts();
  }
}
