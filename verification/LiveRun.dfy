/** Whole runs of the live engine: when its ledger counts every trade once, and exactly when it does not. */
module LiveRun {
  import opened Market
  import opened EngineModel
  import opened LiveMatching
  import opened LiveLedger

  // ---- Trims

  lemma CancelKeepsClean(d: Desk, k: Key)
    requires Clean(d)
    ensures Clean(CancelAt(d, k)) && CancelAt(d, k).ledger == d.ledger
  {
  }

  lemma TrimKeepsClean(d: Desk, k: Key, answer: CloseAnswer)
    requires Clean(d)
    ensures Clean(TrimLevel(d, k, answer))
  {
    var d1 := CancelAt(d, k);
    CancelKeepsClean(d, k);
    if k in d1.trades && answer.Done? {
      CountingKeepsClean(d1, k, ExactRow(Trim, answer.pnl, Some(k), d1.trades[k]), TrimLevel(d, k, answer));
    }
  }

  lemma {:induction false} TrimsKeepClean(d: Desk, keys: seq<Key>, closes: Key -> CloseAnswer)
    requires Clean(d)
    ensures Clean(TrimLevels(d, keys, closes))
  {
    if keys != [] {
      TrimsKeepClean(d, keys[..|keys|-1], closes);
      TrimKeepsClean(TrimLevels(d, keys[..|keys|-1], closes), keys[|keys|-1], closes(keys[|keys|-1]));
    }
  }

  lemma {:induction false} TrimsOnlyAdd(d: Desk, keys: seq<Key>, closes: Key -> CloseAnswer)
    ensures var d' := TrimLevels(d, keys, closes);
      |d.ledger| <= |d'.ledger| && d'.ledger[..|d.ledger|] == d.ledger
  {
    if keys != [] {
      var d1, d' := TrimLevels(d, keys[..|keys|-1], closes), TrimLevels(d, keys, closes);
      TrimsOnlyAdd(d, keys[..|keys|-1], closes);
      assert d'.ledger[..|d1.ledger|] == d1.ledger;
      assert d'.ledger[..|d.ledger|] == d'.ledger[..|d1.ledger|][..|d.ledger|];
    }
  }

  // ---- A poll

  lemma PollKeepsClean(c: EngineConfig, d: Desk, lastPrice: Option<real>, p: PollAnswers)
    requires WalksOnce(c) && Clean(d) && HonestPoll(d, p)
    ensures Clean(FastPoll(c, d, lastPrice, p))
  {
    var d1 := Log(d, ReadTrades(CountOf(p.open)));
    assert Clean(d1);
    if p.open.Some? {
      var open := p.open.value;
      var d2 := CheckLimitFills(c, d1, open, p.resting, p.legs);
      FillsKeepClean(c, d1, open, p.resting, p.legs);
      CloseOutAllKeepsClean(d2, c.order(Vanished(d2.trades, OpenIds(open), d2.trades.Values - d1.trades.Values)),
                            lastPrice);
      TrimsKeepClean(Reconcile(c, d1, open, lastPrice, p), p.levels, p.closes);
    }
  }

  // ---- A close-all

  /** The ids that a close-all counted. */
  ghost function CountedIds(open: seq<LiveTrade>, close: nat -> CloseAnswer): set<nat> {
    set i | 0 <= i < |open| && close(i).Done? :: open[i].id
  }

  lemma {:induction false} CloseEachCounts(d: Desk, open: seq<LiveTrade>, holders: map<nat, Key>,
                                           close: nat -> CloseAnswer)
    requires CountedOnce(d.ledger) && DistinctIds(open) && OpenIds(open) !! LedgerIds(d.ledger)
    ensures var d' := CloseEach(d, open, holders, close);
      && CountedOnce(d'.ledger) && LedgerIds(d'.ledger) == LedgerIds(d.ledger) + CountedIds(open, close)
      && d'.trades == d.trades && d'.entries == d.entries && d'.orders == d.orders && d'.meta == d.meta
  {
    if open == [] {
      assert CountedIds(open, close) == {};
    } else {
      var init, last := open[..|open|-1], open[|open|-1];
      assert open == init + [last];
      assert OpenIds(init) <= OpenIds(open) && last.id in OpenIds(open);
      hide CountedIds, LedgerIds, CountedOnce;
      assert DistinctIds(init);
      CloseEachCounts(d, init, holders, close);
      CountedIdsAdd(open, close);
      CloseOneCounts(CloseEach(d, init, holders, close), last.id, holders, close(|open| - 1));
    }
  }

  lemma CloseOneCounts(d: Desk, id: nat, holders: map<nat, Key>, answer: CloseAnswer)
    requires CountedOnce(d.ledger) && id !in LedgerIds(d.ledger)
    ensures var d' := CloseOne(d, id, holders, answer);
      && CountedOnce(d'.ledger) && LedgerIds(d'.ledger) == LedgerIds(d.ledger) + (if answer.Done? then {id} else {})
      && d'.trades == d.trades && d'.entries == d.entries && d'.orders == d.orders && d'.meta == d.meta
  {
  }

  lemma CountedIdsAdd(open: seq<LiveTrade>, close: nat -> CloseAnswer)
    requires open != [] && DistinctIds(open)
    ensures var init, last := open[..|open|-1], open[|open|-1];
      && CountedIds(open, close) == CountedIds(init, close) + (if close(|open| - 1).Done? then {last.id} else {})
      && last.id !in CountedIds(init, close)
  {
  }

  /** The close-all got as far as closing trades, but the book was not confirmed flat. */
  predicate EndedOpen(o: Outcome) {
    o == SomeFailed || o == RemainderUnread || o == Residual
  }

  /** A trade that the engine holds was closed by a close-all that did not end flat. */
  ghost predicate LeftBehind(e: Engine, a: Attempt) {
    EndedOpen(OutcomeOf(e.breaker, a)) && CountedIds(a.open.value, a.close) * e.desk.trades.Values != {}
  }

  lemma AttemptCounts(c: EngineConfig, e: Engine, reason: string, a: Attempt)
    requires Clean(e.desk) && HonestAttempt(e.desk, a) && EndedOpen(OutcomeOf(e.breaker, a))
    ensures var d, d' := e.desk, CloseAllTrades(c, e, reason, a).desk;
      && CountedOnce(d'.ledger)
      && d'.trades == d.trades && d'.entries == d.entries && d'.orders == d.orders && d'.meta == d.meta
      && LedgerIds(d'.ledger) == LedgerIds(d.ledger) + CountedIds(a.open.value, a.close)
  {
    var d1 := Log(Log(e.desk, CancelAll), ReadTrades(CountOf(a.open)));
    CloseEachCounts(d1, a.open.value, Holders(e.desk.trades, c.order(e.desk.trades.Keys)), a.close);
  }

  lemma Apart(held: set<nat>, before: set<nat>, added: set<nat>)
    requires held !! before
    ensures held !! before + added <==> added * held == {}
  {
    if held !! before + added {
      assert forall x :: x in added ==> x !in held;
    } else {
      var x :| x in held && x in before + added;
      assert x in added * held;
    }
  }

  /** After a close-all the books are clean exactly if it left no counted trade behind. */
  lemma AttemptKeepsCleanIff(c: EngineConfig, e: Engine, reason: string, a: Attempt)
    requires Clean(e.desk) && HonestAttempt(e.desk, a)
    ensures Clean(CloseAllTrades(c, e, reason, a).desk) <==> !LeftBehind(e, a)
  {
    var outcome, d' := OutcomeOf(e.breaker, a), CloseAllTrades(c, e, reason, a).desk;
    if EndedOpen(outcome) {
      AttemptCounts(c, e, reason, a);
      Apart(e.desk.trades.Values, LedgerIds(e.desk.ledger), CountedIds(a.open.value, a.close));
    } else if outcome == Flat {
      var d1 := Log(Log(e.desk, CancelAll), ReadTrades(CountOf(a.open)));
      CloseEachCounts(d1, a.open.value, Holders(e.desk.trades, c.order(e.desk.trades.Keys)), a.close);
      assert d'.ledger == CloseEach(d1, a.open.value, Holders(e.desk.trades, c.order(e.desk.trades.Keys)),
                                    a.close).ledger;
    }
  }

  // ---- Entries

  lemma ProcessEntryKeepsClean(c: EngineConfig, d: Desk, w: Wanted, a: SignalAnswers)
    requires Clean(d) && w.signal.Entry? && Honest(d, Handle(w, a))
    ensures Clean(ProcessEntry(c, d, w, a))
  {
    hide PlaceOpposite;
    var s, units := w.signal, Capped(c, w.signal.units);
    var side := OrderSideOf(s.key.side);
    if a.answer.Accepted? {
      var entry := TradeEntry(s.key, side, units, a.answer.price, Some(s.stopLoss));
      MappingKeepsClean(d, a.answer.id, entry);
      if s.orderType != OrderType.Market && a.answer.immediate {
        var d1 := Log(d, Place(side, units, s.orderType, Some(s.limitPrice), Some(s.stopLoss)));
        var d2 := Log(Mapped(d1, a.answer.id, entry), TellFilled(s.key, a.answer.price));
        var d3 := d2.(meta := d2.meta[s.key := Meta(s.units, 0.0, None, w.opposite)]);
        assert Clean(Mapped(d, a.answer.id, entry)) ==> Clean(d3);
        OppositeKeepsClean(c, d3, s.key, a.leg);
      }
    }
  }

  // ---- Runs

  /** Every close-all of the run that closed a held trade ended on a confirmed flat book. */
  ghost predicate SettledMove(e: Engine, m: Move) {
    m.Handle? && m.wanted.signal.CloseAll? ==> !LeftBehind(e, m.answers.attempt)
  }

  ghost predicate HonestRun(c: EngineConfig, e: Engine, moves: seq<Move>) {
    moves == [] || (HonestRun(c, e, moves[..|moves|-1])
                    && Honest(Play(c, e, moves[..|moves|-1]).desk, moves[|moves|-1]))
  }

  ghost predicate SettledRun(c: EngineConfig, e: Engine, moves: seq<Move>) {
    moves == [] || (SettledRun(c, e, moves[..|moves|-1])
                    && SettledMove(Play(c, e, moves[..|moves|-1]), moves[|moves|-1]))
  }

  lemma StepKeepsClean(c: EngineConfig, e: Engine, m: Move)
    requires WalksOnce(c) && Clean(e.desk) && Honest(e.desk, m) && SettledMove(e, m)
    ensures Clean(Step(c, e, m).desk)
  {
    match m
    case Poll(p) => PollKeepsClean(c, e.desk, e.lastPrice, p);
    case Begin(_) =>
    case Handle(w, a) =>
      if w.signal.CloseAll? {
        AttemptKeepsCleanIff(c, e, w.signal.reason, a.attempt);
      } else {
        ProcessEntryKeepsClean(c, e.desk, w, a);
      }
  }

  /**
   In every run no broker trade is counted twice, across stop-outs, trims and close-alls, and no two keys ever hold
   one trade.
   */
  lemma {:induction false} LedgerCountsOnce(c: EngineConfig, e: Engine, moves: seq<Move>)
    requires WalksOnce(c) && Clean(e.desk) && HonestRun(c, e, moves) && SettledRun(c, e, moves)
    ensures Clean(Play(c, e, moves).desk)
  {
    if moves != [] {
      LedgerCountsOnce(c, e, moves[..|moves|-1]);
      StepKeepsClean(c, Play(c, e, moves[..|moves|-1]), moves[|moves|-1]);
    }
  }

  // ---- A close-all and the poll after it

  /** What a close-all leaves is clean but for trades that it counted and that are still held. */
  lemma AttemptKeepsCleanBut(c: EngineConfig, e: Engine, reason: string, a: Attempt)
    requires Clean(e.desk) && HonestAttempt(e.desk, a)
    ensures CleanBut(CloseAllTrades(c, e, reason, a).desk)
  {
    hide CloseAllTrades, HonestAttempt;
    AttemptKeepsCleanIff(c, e, reason, a);
    if EndedOpen(OutcomeOf(e.breaker, a)) {
      AttemptCounts(c, e, reason, a);
    } else {
      CleanIsCleanBut(CloseAllTrades(c, e, reason, a).desk);
    }
  }

  /** The books once a poll has dealt with its fills. */
  function AfterFills(c: EngineConfig, d: Desk, p: PollAnswers): Desk
    requires p.open.Some?
  {
    CheckLimitFills(c, Log(d, ReadTrades(CountOf(p.open))), p.open.value, p.resting, p.legs)
  }

  /** A poll counts a trade twice exactly when a counted trade is still held once its fills are dealt with. */
  lemma PollCountsTwiceIff(c: EngineConfig, d: Desk, lastPrice: Option<real>, p: PollAnswers)
    requires WalksOnce(c) && CleanBut(d) && HonestPoll(d, p) && p.open.Some?
    ensures CountedOnce(FastPoll(c, d, lastPrice, p).ledger) <==> !HeldOver(d, AfterFills(c, d, p))
  {
    hide CheckLimitFills, CheckClosures, TrimLevels, CleanBut, HonestSnapshot, NewLegs, Clean;
    var d1 := Log(d, ReadTrades(CountOf(p.open)));
    var open := p.open.value;
    LoggedIsCleanBut(d, ReadTrades(CountOf(p.open)), p);
    FillsClean(c, d1, open, p.resting, p.legs);
    var d2 := AfterFills(c, d, p);
    if HeldOver(d, d2) {
      var k :| k in d.trades && d.trades[k] in LedgerIds(d.ledger) && k in d2.trades && d2.trades[k] == d.trades[k];
      CountedAgain(c, d, lastPrice, p, k);
    } else {
      CleanCountsOnce(c, d1, d2, open, lastPrice, p);
    }
  }

  lemma LoggedIsCleanBut(d: Desk, event: Event, p: PollAnswers)
    requires CleanBut(d) && HonestPoll(d, p)
    ensures CleanBut(Log(d, event)) && HonestPoll(Log(d, event), p)
  {
  }

  lemma CleanCountsOnce(c: EngineConfig, d: Desk, d1: Desk, open: seq<LiveTrade>, lastPrice: Option<real>,
                        p: PollAnswers)
    requires d1 == CheckLimitFills(c, d, open, p.resting, p.legs) && Clean(d1)
    ensures CountedOnce(TrimLevels(Reconcile(c, d, open, lastPrice, p), p.levels, p.closes).ledger)
  {
    hide CheckLimitFills, CloseOutAll, Vanished;
    var gone := Vanished(d1.trades, OpenIds(open), d1.trades.Values - d.trades.Values);
    CloseOutAllKeepsClean(d1, c.order(gone), lastPrice);
    TrimsKeepClean(Reconcile(c, d, open, lastPrice, p), p.levels, p.closes);
    hide TrimLevels;
  }

  lemma CountedAgain(c: EngineConfig, d: Desk, lastPrice: Option<real>, p: PollAnswers, k: Key)
    requires WalksOnce(c) && HonestPoll(d, p) && p.open.Some? && k in d.trades && d.trades[k] in LedgerIds(d.ledger)
    requires var d2 := AfterFills(c, d, p); d2.ledger == d.ledger && k in d2.trades && d2.trades[k] == d.trades[k]
    ensures !CountedOnce(FastPoll(c, d, lastPrice, p).ledger)
  {
    hide CheckLimitFills, CheckClosures, TrimLevels, NewLegs;
    var d1, open := Log(d, ReadTrades(CountOf(p.open))), p.open.value;
    HeldIsCounted(c, d1, open, lastPrice, p, k);
    var d2 := Reconcile(c, d1, open, lastPrice, p);
    var row :| row in d.ledger && row.id == d.trades[k];
    var i :| 0 <= i < |d.ledger| && d.ledger[i] == row;
    var j :| |d.ledger| <= j < |d2.ledger| && d2.ledger[j].id == d.trades[k];
    TrimsOnlyAdd(d2, p.levels, p.closes);
    var ledger := FastPoll(c, d, lastPrice, p).ledger;
    assert ledger[i] == ledger[..|d2.ledger|][i] && d2.ledger[i] == d2.ledger[..|d.ledger|][i];
    assert ledger[j] == ledger[..|d2.ledger|][j];
  }

  /**
   Main result: a close-all and the poll after it count a trade twice if and only if a trade that the close-all counted
   is still held once the fills of the poll are dealt with.
   */
  lemma CountsTwiceIff(c: EngineConfig, e: Engine, reason: string, a: Attempt, p: PollAnswers)
    requires WalksOnce(c) && Clean(e.desk) && HonestAttempt(e.desk, a)
    requires HonestPoll(CloseAllTrades(c, e, reason, a).desk, p) && p.open.Some?
    ensures var e1 := CloseAllTrades(c, e, reason, a);
      CountedOnce(FastPoll(c, e1.desk, e1.lastPrice, p).ledger) <==> !HeldOver(e1.desk, AfterFills(c, e1.desk, p))
  {
    hide CloseAllTrades, FastPoll, Clean, CleanBut, HonestAttempt, HonestPoll, HeldOver, AfterFills;
    AttemptKeepsCleanBut(c, e, reason, a);
    PollCountsTwiceIff(c, CloseAllTrades(c, e, reason, a).desk, CloseAllTrades(c, e, reason, a).lastPrice, p);
  }

  /** While no order and no leg is under a key that holds a trade, that is whether it left a counted trade behind. */
  lemma HeldOverIffLeftBehind(c: EngineConfig, e: Engine, reason: string, a: Attempt, p: PollAnswers)
    requires WalksOnce(c) && Clean(e.desk) && Separate(e.desk) && HonestAttempt(e.desk, a) && p.open.Some?
    ensures var d := CloseAllTrades(c, e, reason, a).desk; HeldOver(d, AfterFills(c, d, p)) <==> LeftBehind(e, a)
  {
    hide CloseAllTrades, HonestAttempt, CheckLimitFills;
    AttemptKeepsCleanIff(c, e, reason, a);
    var d := CloseAllTrades(c, e, reason, a).desk;
    if LeftBehind(e, a) {
      AttemptCounts(c, e, reason, a);
      var id :| id in CountedIds(a.open.value, a.close) * e.desk.trades.Values;
      var k :| k in e.desk.trades && e.desk.trades[k] == id;
      var d1 := Log(d, ReadTrades(CountOf(p.open)));
      CheckLimitFillsKeepsHeld(c, d1, d.trades, p.open.value, p.resting, p.legs);
      assert k in AfterFills(c, d, p).trades;
    } else {
      CleanHoldsNoCounted(d, AfterFills(c, d, p));
    }
  }

  lemma CleanHoldsNoCounted(d: Desk, d1: Desk)
    requires Clean(d)
    ensures !HeldOver(d, d1)
  {
  }

  // ---- A run that counts twice

  const LOW: Wanted := Wanted(Entry(Key(9000, Long), 1.0, OrderType.Market, 0.0, 80.0), None)
  const HIGH: Wanted := Wanted(Entry(Key(10000, Long), 1.0, OrderType.Market, 0.0, 90.0), None)

  /** Two trades are open; the first closes, the second does not. */
  function HalfAttempt(): Attempt {
    Attempt(0.0, 0.0, true, Some([LiveTrade(1, Buy, 100.0), LiveTrade(2, Buy, 100.0)]),
            i => if i == 0 then Done(Some(5.0)) else Failed, None, None, 0.0)
  }

  function Filled(id: nat): SignalAnswers {
    SignalAnswers(100.0, 0, true, Accepted(id, 100.0, false), Refused, HalfAttempt())
  }

  function HalfClosed(): seq<Move> {
    [Handle(LOW, Filled(1)), Handle(HIGH, Filled(2))]
  }

  /** The poll after it shows only the second trade. */
  function LaterPoll(): PollAnswers {
    PollAnswers(Some([LiveTrade(2, Buy, 100.0)]), None, k => Refused, [], k => Failed)
  }

  lemma HeldIds(none: map<Key, nat>, k: Key, id: nat)
    requires none == map[]
    ensures none.Values == {} && map[k := id].Values == {id}
  {
    assert map[k := id][k] == id;
  }

  /** Two trades are held under two keys, and nothing was counted or refused. */
  ghost predicate TwoHeld(e: Engine) {
    && Clean(e.desk) && Separate(e.desk) && e.desk.ledger == []
    && e.desk.trades == map[LOW.signal.key := 1, HIGH.signal.key := 2]
    && e.breaker.failures == 0 && e.breaker.retryAt == None
  }

  lemma HonestNext(c: EngineConfig, e: Engine, moves: seq<Move>, m: Move)
    requires HonestRun(c, e, moves) && Honest(Play(c, e, moves).desk, m)
    ensures HonestRun(c, e, moves + [m]) && Play(c, e, moves + [m]) == Step(c, Play(c, e, moves), m)
  {
    assert (moves + [m])[..|moves|] == moves;
    hide Honest, Step;
  }

  lemma MarketEntryHolds(c: EngineConfig, e: Engine, w: Wanted, id: nat)
    requires c.maxOpenTrades == 0 && (w == LOW || w == HIGH) && id != NO_ID && id !in Known(e.desk) && Clean(e.desk)
    ensures var e' := Step(c, e, Handle(w, Filled(id)));
      && Honest(e.desk, Handle(w, Filled(id))) && Clean(e'.desk)
      && e'.desk.trades == e.desk.trades[w.signal.key := id] && e'.desk.ledger == e.desk.ledger
      && e'.desk.orders == e.desk.orders && e'.desk.meta == e.desk.meta && e'.breaker == e.breaker
  {
    ProcessEntryKeepsClean(c, e.desk, w, Filled(id));
    hide Clean, Known;
  }

  lemma TwoTradesHeld(c: EngineConfig, seed: Option<real>, today: string)
    requires c.maxOpenTrades == 0
    ensures var start := Started(c, seed, today);
      HonestRun(c, start, HalfClosed()) && TwoHeld(Play(c, start, HalfClosed()))
  {
    var start, moves := Started(c, seed, today), HalfClosed();
    HeldIds(start.desk.trades, LOW.signal.key, 1);
    assert LedgerIds([]) == {};
    assert Known(start.desk) == {};
    assert Play(c, start, []) == start && HonestRun(c, start, []);
    hide Step, Honest, Play, HonestRun, LedgerIds;
    var e1 := Step(c, start, moves[0]);
    MarketEntryHolds(c, start, LOW, 1);
    HonestNext(c, start, [], moves[0]);
    assert [] + [moves[0]] == [moves[0]] && [moves[0]] + [moves[1]] == moves;
    assert Known(e1.desk) == {1};
    MarketEntryHolds(c, e1, HIGH, 2);
    HonestNext(c, start, [moves[0]], moves[1]);
  }

  lemma HalfAttemptLeavesBehind(e: Engine)
    requires TwoHeld(e)
    ensures HonestAttempt(e.desk, HalfAttempt()) && LeftBehind(e, HalfAttempt())
    ensures CountedIds(HalfAttempt().open.value, HalfAttempt().close) == {1}
  {
    hide Clean, Separate;
    var a := HalfAttempt();
    assert FailedCloses(2, a.close) == FailedCloses(1, a.close) + 1;
    assert a.open.value[0].id in CountedIds(a.open.value, a.close);
    assert e.desk.trades[LOW.signal.key] == 1 && 1 in e.desk.trades.Values;
    assert 1 in CountedIds(a.open.value, a.close) * e.desk.trades.Values;
  }

  lemma LaterPollIsHonest(d: Desk)
    requires LedgerIds(d.ledger) == {1}
    ensures HonestPoll(d, LaterPoll())
  {
  }

  /** An honest broker can leave a counted trade behind, and the next poll then counts it again. */
  lemma HonestRunCountsTwice(c: EngineConfig, seed: Option<real>, today: string)
    requires WalksOnce(c) && c.maxOpenTrades == 0
    ensures var e := Play(c, Started(c, seed, today), HalfClosed());
      var e1 := CloseAllTrades(c, e, "session_loss_limit", HalfAttempt());
      && HonestRun(c, Started(c, seed, today), HalfClosed())
      && HonestAttempt(e.desk, HalfAttempt()) && HonestPoll(e1.desk, LaterPoll())
      && LeftBehind(e, HalfAttempt())
      && !CountedOnce(FastPoll(c, e1.desk, e1.lastPrice, LaterPoll()).ledger)
  {
    TwoTradesHeld(c, seed, today);
    var e := Play(c, Started(c, seed, today), HalfClosed());
    HalfAttemptLeavesBehind(e);
    assert LedgerIds([]) == {};
    hide Play, HonestRun, FastPoll, CloseAllTrades, Started, HonestAttempt, HonestPoll, LedgerIds, CountedIds,
      CountedOnce, OutcomeOf;
    AttemptCounts(c, e, "session_loss_limit", HalfAttempt());
    LaterPollIsHonest(CloseAllTrades(c, e, "session_loss_limit", HalfAttempt()).desk);
    CountsTwiceIff(c, e, "session_loss_limit", HalfAttempt(), LaterPoll());
  }
}
