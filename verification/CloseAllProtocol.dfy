/** The close-all of the live engine: when it notifies, how long a failure blocks it, and when it stops the engine. */
module CloseAllProtocol {
  import opened Market
  import opened Rounding
  import opened EngineModel

  // ---- The strategy is notified only on a flat book

  /** The broker has just reported no open trades; at most the balance was read since. */
  predicate JustFlat(trace: seq<Event>) {
    var n := |trace|;
    || (n >= 1 && trace[n - 1] == ReadTrades(Some(0)))
    || (n >= 2 && trace[n - 1] == ReadSummary && trace[n - 2] == ReadTrades(Some(0)))
  }

  ghost predicate NotifiedFlat(trace: seq<Event>) {
    forall i :: 0 <= i < |trace| && trace[i] == TellComplete ==> JustFlat(trace[..i])
  }

  /** The trace grew, and without a notification. */
  ghost predicate Quietly(d: Desk, d': Desk) {
    && |d.trace| <= |d'.trace| && d'.trace[..|d.trace|] == d.trace
    && forall i :: |d.trace| <= i < |d'.trace| ==> d'.trace[i] != TellComplete
  }

  lemma QuietlyKeeps(d: Desk, d': Desk)
    requires Quietly(d, d') && NotifiedFlat(d.trace)
    ensures NotifiedFlat(d'.trace)
  {
  }

  lemma QuietlyChains(d: Desk, d': Desk, d'': Desk)
    requires Quietly(d, d') && Quietly(d', d'')
    ensures Quietly(d, d'')
  {
  }

  lemma OppositeIsQuiet(c: EngineConfig, d: Desk, k: Key, answer: OrderAnswer)
    ensures Quietly(d, PlaceOpposite(c, d, k, answer))
  {
  }

  lemma MatchOneIsQuiet(c: EngineConfig, m: Matching, k: Key, leg: OrderAnswer)
    ensures Quietly(m.desk, MatchOne(c, m, k, leg).desk)
  {
    var d := m.desk.(orders := m.desk.orders - {k});
    var found := Nearest(m.unclaimed, OrderSideOf(k.side), Price(k.level));
    if found.Some? && m.unclaimed[found.value].id != NO_ID {
      var t := m.unclaimed[found.value];
      var d1 := Log(Mapped(d, t.id, EntryFor(d, k, t)), TellFilled(k, t.openPrice));
      assert Quietly(m.desk, d1);
      OppositeIsQuiet(c, d1, k, leg);
      QuietlyChains(m.desk, d1, PlaceOpposite(c, d1, k, leg));
    }
  }

  lemma {:induction false} MatchAllIsQuiet(c: EngineConfig, m: Matching, keys: seq<Key>, legs: Key -> OrderAnswer)
    ensures Quietly(m.desk, MatchAll(c, m, keys, legs).desk)
  {
    if keys != [] {
      hide MatchOne, Quietly;
      var m1 := MatchAll(c, m, keys[..|keys|-1], legs);
      MatchAllIsQuiet(c, m, keys[..|keys|-1], legs);
      MatchOneIsQuiet(c, m1, keys[|keys|-1], legs(keys[|keys|-1]));
      QuietlyChains(m.desk, m1.desk, MatchAll(c, m, keys, legs).desk);
    }
  }

  lemma {:induction false} CloseOutAllIsQuiet(d: Desk, keys: seq<Key>, lastPrice: Option<real>)
    ensures Quietly(d, CloseOutAll(d, keys, lastPrice))
  {
    if keys != [] {
      var d1 := CloseOutAll(d, keys[..|keys|-1], lastPrice);
      CloseOutAllIsQuiet(d, keys[..|keys|-1], lastPrice);
      QuietlyChains(d, d1, CloseOut(d1, keys[|keys|-1], lastPrice));
    }
  }

  lemma {:induction false} TrimLevelsIsQuiet(d: Desk, keys: seq<Key>, closes: Key -> CloseAnswer)
    ensures Quietly(d, TrimLevels(d, keys, closes))
  {
    if keys != [] {
      var k := keys[|keys|-1];
      var d1 := TrimLevels(d, keys[..|keys|-1], closes);
      TrimLevelsIsQuiet(d, keys[..|keys|-1], closes);
      TrimLevelIsQuiet(d1, k, closes(k));
      QuietlyChains(d, d1, TrimLevel(d1, k, closes(k)));
    }
  }

  lemma TrimLevelIsQuiet(d: Desk, k: Key, answer: CloseAnswer)
    ensures Quietly(d, TrimLevel(d, k, answer))
  {
  }

  lemma {:induction false} CloseEachIsQuiet(d: Desk, open: seq<LiveTrade>, holders: map<nat, Key>,
                                            close: nat -> CloseAnswer)
    ensures Quietly(d, CloseEach(d, open, holders, close))
  {
    if open != [] {
      var d1 := CloseEach(d, open[..|open|-1], holders, close);
      CloseEachIsQuiet(d, open[..|open|-1], holders, close);
      QuietlyChains(d, d1, CloseOne(d1, open[|open|-1].id, holders, close(|open| - 1)));
    }
  }

  lemma FastPollIsQuiet(c: EngineConfig, d: Desk, lastPrice: Option<real>, p: PollAnswers)
    ensures Quietly(d, FastPoll(c, d, lastPrice, p))
  {
    var d1 := Log(d, ReadTrades(CountOf(p.open)));
    assert Quietly(d, d1);
    if p.open.Some? {
      var open := p.open.value;
      var d2 := CheckLimitFills(c, d1, open, p.resting, p.legs);
      FillsAreQuiet(c, d1, open, p.resting, p.legs);
      var d3 := Reconcile(c, d1, open, lastPrice, p);
      var skip := d2.trades.Values - d1.trades.Values;
      CloseOutAllIsQuiet(d2, c.order(Vanished(d2.trades, OpenIds(open), skip)), lastPrice);
      TrimLevelsIsQuiet(d3, p.levels, p.closes);
      QuietlyChains(d, d1, d2);
      QuietlyChains(d, d2, d3);
      QuietlyChains(d, d3, FastPoll(c, d, lastPrice, p));
    }
  }

  lemma FillsAreQuiet(c: EngineConfig, d: Desk, open: seq<LiveTrade>, resting: Option<set<nat>>,
                      legs: Key -> OrderAnswer)
    ensures Quietly(d, CheckLimitFills(c, d, open, resting, legs))
  {
    if d.orders != map[] && resting.Some? {
      var m := Matching(Log(d, ReadOrders), Unmapped(open, d.trades.Values));
      MatchAllIsQuiet(c, m, c.order(Gone(d.orders, resting.value)), legs);
      QuietlyChains(d, m.desk, CheckLimitFills(c, d, open, resting, legs));
    }
  }

  lemma RestingIsQuiet(c: EngineConfig, d: Desk, w: Wanted, answer: OrderAnswer, leg: OrderAnswer)
    requires w.signal.Entry?
    ensures Quietly(d, PlaceResting(c, d, w, answer, leg))
  {
    hide PlaceOpposite;
    if answer.Accepted? && answer.immediate {
      var s, units := w.signal, Capped(c, w.signal.units);
      var side := OrderSideOf(s.key.side);
      var d1 := Log(d, Place(side, units, s.orderType, Some(s.limitPrice), Some(s.stopLoss)));
      var d2 := Log(Mapped(d1, answer.id, TradeEntry(s.key, side, units, answer.price, Some(s.stopLoss))),
                    TellFilled(s.key, answer.price));
      var d3 := d2.(meta := d2.meta[s.key := Meta(s.units, 0.0, None, w.opposite)]);
      assert Quietly(d, d3);
      OppositeIsQuiet(c, d3, s.key, leg);
      QuietlyChains(d, d3, PlaceOpposite(c, d3, s.key, leg));
    }
  }

  lemma MarketIsQuiet(c: EngineConfig, d: Desk, s: Signal, answer: OrderAnswer)
    requires s.Entry?
    ensures Quietly(d, PlaceMarket(c, d, s, answer))
  {
  }

  lemma ProcessEntryIsQuiet(c: EngineConfig, d: Desk, w: Wanted, a: SignalAnswers)
    requires w.signal.Entry?
    ensures Quietly(d, ProcessEntry(c, d, w, a))
  {
    hide PlaceResting, PlaceMarket;
    RestingIsQuiet(c, d, w, a.answer, a.leg);
    MarketIsQuiet(c, d, w.signal, a.answer);
    LogIsQuiet(d, TellRejected(w.signal.key));
  }

  predicate Attempted(b: Breaker, a: Attempt) {
    b.failures < MAX_CLOSE_ALL_RETRIES && (b.retryAt.None? || a.now >= b.retryAt.value)
  }

  /** A close-all that is neither broken nor waiting, case by case. */
  lemma AttemptCases(c: EngineConfig, d: Desk, b: Breaker, a: Attempt)
    ensures var outcome, d' := OutcomeOf(b, a), DeskAfterAttempt(c, d, b, a);
      if !Attempted(b, a) then outcome in {Broken, Waiting} && d' == d
      else
        var d1 := Log(Log(d, CancelAll), ReadTrades(CountOf(a.open)));
        && (a.open.None? ==> outcome == Unread && d' == d1)
        && (a.open == Some([]) ==> outcome == NothingOpen && d' == Log(Cleared(d1), TellComplete))
        && (a.open.Some? && a.open.value != [] ==>
              var d2 := CloseEach(d1, a.open.value, Holders(d.trades, c.order(d.trades.Keys)), a.close);
              var d3 := Log(d2, ReadTrades(a.remaining));
              var d4 := if c.hasSummary then Log(Cleared(d3), ReadSummary) else Cleared(d3);
              if FailedCloses(|a.open.value|, a.close) > 0 then outcome == SomeFailed && d' == d2
              else if a.remaining.None? then outcome == RemainderUnread && d' == d3
              else if a.remaining.value != 0 then outcome == Residual && d' == d3
              else outcome == Flat && d' == Log(d4, TellComplete))
  {
  }

  lemma LogIsQuiet(d: Desk, e: Event)
    requires e != TellComplete
    ensures Quietly(d, Log(d, e))
  {
  }

  lemma ClosesAreQuiet(d: Desk, count: Option<nat>, open: seq<LiveTrade>, holders: map<nat, Key>,
                       close: nat -> CloseAnswer)
    ensures var d1 := Log(Log(d, CancelAll), ReadTrades(count));
      && Quietly(d, d1) && Quietly(d, CloseEach(d1, open, holders, close))
      && EndsWithoutNotice(d1) && EndsWithoutNotice(CloseEach(d1, open, holders, close))
  {
    var d1 := Log(Log(d, CancelAll), ReadTrades(count));
    assert Quietly(d, d1);
    CloseEachIsQuiet(d1, open, holders, close);
    QuietlyChains(d, d1, CloseEach(d1, open, holders, close));
    LastEventIsNoNotice(d1, CloseEach(d1, open, holders, close));
  }

  predicate EndsWithoutNotice(d: Desk) {
    d.trace != [] && d.trace[|d.trace|-1] != TellComplete
  }

  /** Either the strategy was told last of all, with all maps empty, or not at all. */
  ghost predicate ToldIf(told: bool, d: Desk, d': Desk) {
    && NotifiedFlat(d'.trace)
    && (if told then d' == Cleared(d') && |d'.trace| > |d.trace| && d'.trace[|d'.trace|-1] == TellComplete
        else Quietly(d, d') && (d' == d || EndsWithoutNotice(d')))
  }

  /**
   A close-all notifies exactly when it found nothing open or confirmed that nothing is left, and then all maps are
   empty.
   */
  lemma AttemptNotifiesWhenFlat(c: EngineConfig, d: Desk, b: Breaker, a: Attempt)
    requires NotifiedFlat(d.trace)
    ensures ToldIf(OutcomeOf(b, a).NothingOpen? || OutcomeOf(b, a).Flat?, d, DeskAfterAttempt(c, d, b, a))
  {
    hide DeskAfterAttempt, OutcomeOf, CloseEach, Holders, FailedCloses;
    AttemptCases(c, d, b, a);
    if !Attempted(b, a) {
      SameIsQuiet(d);
    } else if a.open.None? {
      ClosesAreQuiet(d, None, [], map[], a.close);
      QuietlyKeeps(d, DeskAfterAttempt(c, d, b, a));
    } else {
      var open, holders := a.open.value, Holders(d.trades, c.order(d.trades.Keys));
      ClosesAreQuiet(d, Some(|open|), open, holders, a.close);
      var d1 := Log(Log(d, CancelAll), ReadTrades(Some(|open|)));
      if open == [] {
        NoticeKeeps(d, d1, DeskAfterAttempt(c, d, b, a));
      } else {
        RemainderKeeps(c, d, CloseEach(d1, open, holders, a.close), a.remaining);
        QuietlyKeeps(d, CloseEach(d1, open, holders, a.close));
      }
    }
  }

  lemma SameIsQuiet(d: Desk)
    ensures Quietly(d, d)
  {
  }

  lemma NoticeKeeps(d: Desk, d1: Desk, d': Desk)
    requires NotifiedFlat(d.trace) && Quietly(d, d1) && JustFlat(d1.trace)
    requires d' == Log(Cleared(d1), TellComplete)
    ensures ToldIf(true, d, d')
  {
    QuietlyKeeps(d, d1);
    NotifyKeeps(d1.trace);
  }

  /** What follows the closes: the remaining trades are read, and a flat book is announced. */
  lemma RemainderKeeps(c: EngineConfig, d: Desk, d2: Desk, remaining: Option<nat>)
    requires NotifiedFlat(d.trace) && Quietly(d, d2)
    ensures var d3 := Log(d2, ReadTrades(remaining));
      && ToldIf(false, d, d3)
      && (remaining == Some(0) ==>
            ToldIf(true, d, Log(if c.hasSummary then Log(Cleared(d3), ReadSummary) else Cleared(d3), TellComplete)))
  {
    var d3 := Log(d2, ReadTrades(remaining));
    LogIsQuiet(d2, ReadTrades(remaining));
    QuietlyChains(d, d2, d3);
    QuietlyKeeps(d, d3);
    if remaining == Some(0) {
      if c.hasSummary {
        LogIsQuiet(d3, ReadSummary);
        QuietlyChains(d, d3, Log(d3, ReadSummary));
        NoticeKeeps(d, Log(d3, ReadSummary), Log(Log(Cleared(d3), ReadSummary), TellComplete));
      } else {
        NoticeKeeps(d, d3, Log(Cleared(d3), TellComplete));
      }
    }
  }

  lemma LastEventIsNoNotice(d: Desk, d': Desk)
    requires Quietly(d, d') && |d.trace| > 0 && d.trace[|d.trace|-1] != TellComplete
    ensures |d'.trace| > 0 && d'.trace[|d'.trace|-1] != TellComplete
  {
  }

  lemma NotifyKeeps(trace: seq<Event>)
    requires NotifiedFlat(trace) && JustFlat(trace)
    ensures NotifiedFlat(trace + [TellComplete])
  {
  }

  lemma StepNotifiesWhenFlat(c: EngineConfig, e: Engine, m: Move)
    requires NotifiedFlat(e.desk.trace)
    ensures NotifiedFlat(Step(c, e, m).desk.trace)
  {
    var d, d' := e.desk, Step(c, e, m).desk;
    match m
    case Poll(p) =>
      FastPollIsQuiet(c, d, e.lastPrice, p);
      QuietlyKeeps(d, d');
    case Begin(y) =>
      assert Quietly(d, d');
      QuietlyKeeps(d, d');
    case Handle(w, a) =>
      if w.signal.CloseAll? {
        AttemptNotifiesWhenFlat(c, d, e.breaker, a.attempt);
      } else {
        ProcessEntryIsQuiet(c, d, w, a);
        QuietlyKeeps(d, d');
      }
  }

  /**
   In every run, whatever the broker answers, the strategy is told that a close-all is complete only right after the
   broker reported no open trades.
   */
  lemma {:induction false} NotifiedOnlyWhenFlat(c: EngineConfig, e: Engine, moves: seq<Move>)
    requires NotifiedFlat(e.desk.trace)
    ensures NotifiedFlat(Play(c, e, moves).desk.trace)
  {
    if moves != [] {
      NotifiedOnlyWhenFlat(c, e, moves[..|moves|-1]);
      StepNotifiesWhenFlat(c, Play(c, e, moves[..|moves|-1]), moves[|moves|-1]);
    }
  }

  // ---- Waiting after a failure

  predicate IsAttempt(m: Move) {
    m.Handle? && m.wanted.signal.CloseAll?
  }

  /** No close-all of the run is tried at or after `until`. */
  ghost predicate AllBefore(moves: seq<Move>, until: real) {
    forall m :: m in moves && IsAttempt(m) ==> m.answers.attempt.now < until
  }

  lemma {:induction false} RetryTimeStands(c: EngineConfig, e: Engine, moves: seq<Move>, until: real)
    requires e.breaker.retryAt == Some(until) && AllBefore(moves, until)
    ensures Play(c, e, moves).breaker.retryAt == Some(until)
    ensures Play(c, e, moves).breaker.failures == e.breaker.failures
  {
    if moves != [] {
      var m := moves[|moves|-1];
      assert m in moves;
      RetryTimeStands(c, e, moves[..|moves|-1], until);
    }
  }

  /**
   After its k-th failure, caused by a close that failed, a close-all asks nothing of the broker for 10 * 2^(k-1)
   seconds, whatever else the engine does meanwhile.
   */
  lemma FailureBlocks(c: EngineConfig, e: Engine, first: Attempt, why: string, moves: seq<Move>, next: Attempt,
                      reason: string)
    requires OutcomeOf(e.breaker, first) == SomeFailed
    requires var k := e.breaker.failures + 1;
      next.now < first.later + Backoff(k) as real && AllBefore(moves, first.later + Backoff(k) as real)
    ensures var e1 := Play(c, CloseAllTrades(c, e, why, first), moves);
      var e2 := CloseAllTrades(c, e1, reason, next);
      e2.desk == e1.desk && e2.money == e1.money && OutcomeOf(e1.breaker, next) in {Waiting, Broken}
  {
    RetryTimeStands(c, CloseAllTrades(c, e, why, first), moves, first.later + Backoff(e.breaker.failures + 1) as real);
  }

  /** The wait is over at that very second: the broker is asked again. */
  lemma FailureBlocksNoLonger(c: EngineConfig, e: Engine, first: Attempt, why: string, next: Attempt, reason: string)
    requires OutcomeOf(e.breaker, first) == SomeFailed && e.breaker.failures + 1 < MAX_CLOSE_ALL_RETRIES
    requires next.now >= first.later + Backoff(e.breaker.failures + 1) as real
    ensures var e1 := CloseAllTrades(c, e, why, first);
      |CloseAllTrades(c, e1, reason, next).desk.trace| > |e1.desk.trace|
  {
    var e1 := CloseAllTrades(c, e, why, first);
    var d1 := Log(Log(e1.desk, CancelAll), ReadTrades(CountOf(next.open)));
    if next.open.Some? {
      CloseEachIsQuiet(d1, next.open.value, Holders(e1.desk.trades, c.order(e1.desk.trades.Keys)), next.close);
    }
  }

  // ---- The circuit breaker

  function CountedFailure(before: nat, outcome: Outcome): nat {
    match outcome
    case SomeFailed => before + 1
    case Residual => before + 1
    case NothingOpen => 0
    case Flat => 0
    case _ => before
  }

  /** The failed close-alls of a run since the book was last found or made flat. */
  function FailuresSinceFlat(c: EngineConfig, e: Engine, moves: seq<Move>): nat {
    if moves == [] then e.breaker.failures
    else
      var before, m := FailuresSinceFlat(c, e, moves[..|moves|-1]), moves[|moves|-1];
      if !IsAttempt(m) then before
      else CountedFailure(before, OutcomeOf(Play(c, e, moves[..|moves|-1]).breaker, m.answers.attempt))
  }

  lemma AttemptOfBreaker(c: EngineConfig, e: Engine, reason: string, a: Attempt)
    requires e.breaker.failures <= MAX_CLOSE_ALL_RETRIES
    ensures var e2 := CloseAllTrades(c, e, reason, a);
      && (e.breaker.failures == MAX_CLOSE_ALL_RETRIES ==> e2 == e.(breaker := e.breaker.(running := false)))
      && (e.breaker.failures < MAX_CLOSE_ALL_RETRIES ==> e2.breaker.running == e.breaker.running)
  {
  }

  lemma FailuresOfStep(c: EngineConfig, e: Engine, m: Move)
    requires e.breaker.failures <= MAX_CLOSE_ALL_RETRIES
    ensures var failures := Step(c, e, m).breaker.failures;
      && failures <= MAX_CLOSE_ALL_RETRIES
      && failures == if !IsAttempt(m) then e.breaker.failures
                     else CountedFailure(e.breaker.failures, OutcomeOf(e.breaker, m.answers.attempt))
  {
  }

  lemma {:induction false} FailuresAreCounted(c: EngineConfig, e: Engine, moves: seq<Move>)
    requires e.breaker.failures <= MAX_CLOSE_ALL_RETRIES
    ensures FailuresSinceFlat(c, e, moves) == Play(c, e, moves).breaker.failures <= MAX_CLOSE_ALL_RETRIES
  {
    hide Step;
    if moves != [] {
      FailuresAreCounted(c, e, moves[..|moves|-1]);
      FailuresOfStep(c, Play(c, e, moves[..|moves|-1]), moves[|moves|-1]);
    }
  }

  /**
   In every run there are at most five failed close-alls in a row, and the close-all that follows the fifth stops the
   engine without asking the broker anything.
   */
  lemma {:induction false} FiveFailuresStop(c: EngineConfig, e: Engine, moves: seq<Move>, reason: string, a: Attempt)
    requires e.breaker.failures <= MAX_CLOSE_ALL_RETRIES
    ensures var e1 := Play(c, e, moves);
      var e2 := CloseAllTrades(c, e1, reason, a);
      && FailuresSinceFlat(c, e, moves) == e1.breaker.failures <= MAX_CLOSE_ALL_RETRIES
      && (e1.breaker.failures == MAX_CLOSE_ALL_RETRIES ==> e2 == e1.(breaker := e1.breaker.(running := false)))
      && (e1.breaker.failures < MAX_CLOSE_ALL_RETRIES ==> e2.breaker.running == e1.breaker.running)
  {
    FailuresAreCounted(c, e, moves);
    AttemptOfBreaker(c, Play(c, e, moves), reason, a);
  }

  /** An attempt that reads no open trades, or closes them all and cannot read what remains. */
  predicate LeavesUnread(a: Attempt) {
    || a.open.None?
    || (a.open.value != [] && FailedCloses(|a.open.value|, a.close) == 0 && a.remaining.None?)
  }

  lemma UnreadAttempt(c: EngineConfig, e: Engine, reason: string, a: Attempt)
    requires e.breaker.failures < MAX_CLOSE_ALL_RETRIES && e.breaker.retryAt == None && LeavesUnread(a)
    ensures CloseAllTrades(c, e, reason, a).breaker == e.breaker
  {
  }

  /**
   Attempts that end on such a read, however many there are and whatever they closed, neither trip the breaker nor
   wait: the next close-all asks the broker at once.
   */
  lemma {:induction false} UnreadNeverTrips(c: EngineConfig, e: Engine, moves: seq<Move>, next: Attempt)
    requires e.breaker.failures < MAX_CLOSE_ALL_RETRIES && e.breaker.retryAt == None
    requires forall m :: m in moves && IsAttempt(m) ==> LeavesUnread(m.answers.attempt)
    ensures var b := Play(c, e, moves).breaker;
      b.failures == e.breaker.failures && b.retryAt == None && OutcomeOf(b, next) !in {Broken, Waiting}
  {
    if moves != [] {
      hide Step, LeavesUnread;
      var m, e1 := moves[|moves|-1], Play(c, e, moves[..|moves|-1]);
      assert m in moves;
      UnreadNeverTrips(c, e, moves[..|moves|-1], next);
      UnreadMove(c, e1, m);
    }
  }

  lemma UnreadMove(c: EngineConfig, e: Engine, m: Move)
    requires e.breaker.failures < MAX_CLOSE_ALL_RETRIES && e.breaker.retryAt == None
    requires IsAttempt(m) ==> LeavesUnread(m.answers.attempt)
    ensures var b := Step(c, e, m).breaker; b.failures == e.breaker.failures && b.retryAt == None
  {
    if IsAttempt(m) {
      UnreadAttempt(c, e, m.wanted.signal.reason, m.answers.attempt);
    }
    hide FastPoll, DeskAfterAttempt, ProcessEntry;
  }

  /** Turns that would follow a stop change nothing. */
  lemma {:induction false} StoppedLoops(c: EngineConfig, e: Engine, turns: seq<Turn>, i: nat)
    requires i <= |turns| && !Loop(c, e, turns[..i]).breaker.running
    ensures Loop(c, e, turns) == Loop(c, e, turns[..i])
    decreases |turns| - i
  {
    if i == |turns| {
      assert turns[..i] == turns;
    } else {
      assert turns[..i + 1][..i] == turns[..i];
      StoppedLoops(c, e, turns, i + 1);
    }
  }

  // ---- The drain of the live cycle

  lemma StartNeedsBars(c: EngineConfig, e: Engine, y: CycleAnswers)
    ensures StartCycle(c, e, y).1 ==> y.close.Some?
  {
  }

  /**
   A cycle takes at most 51 signals, nothing after a close-all, and all there are unless it ends at a close-all or at
   the cap.
   */
  lemma {:induction false} DrainIsBounded(signals: nat -> Option<Wanted>, i: nat)
    requires i <= MAX_DRAIN + 1
    ensures var r := Collect(signals, i);
      && |r| <= MAX_DRAIN + 1 - i
      && (forall j :: 0 <= j < |r| ==> signals(i + j) == Some(r[j]))
      && (forall j :: 0 <= j < |r| - 1 ==> r[j].signal.Entry?)
      && (|r| < MAX_DRAIN + 1 - i ==> signals(i + |r|).None? || (|r| > 0 && r[|r|-1].signal.CloseAll?))
    decreases MAX_DRAIN + 1 - i
  {
    if i <= MAX_DRAIN && signals(i).Some? && !signals(i).value.signal.CloseAll? {
      DrainIsBounded(signals, i + 1);
    }
  }
}
